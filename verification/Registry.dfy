/** The registry of calls (gotgcall.go): two concurrent maps, a create mutex per chat, and any number
    of goroutines that create, stop and reap calls. Each map operation is one atomic step. Whether a
    call's connection has failed is decided by the environment. */
module Registry {
  type Chat = int

  /** How far a goroutine has come. The creating ones hold their chat's mutex from `Loading` on. */
  datatype Thread =
    | Entered(chat: Chat)
    | AtLock(chat: Chat, mutex: nat)
    | Loading(chat: Chat)
    | Judging(chat: Chat, prev: nat)
    | Deleting(chat: Chat, prev: nat)
    | StoppingDead(chat: Chat, prev: nat)
    | Building(chat: Chat)
    | Storing(chat: Chat, call: nat)
    | Finishing(chat: Chat)
    | Failing(chat: Chat)
    | StoppingFailed(chat: Chat, call: nat)
    | Unlocking(chat: Chat)
    | LookingUp(chat: Chat)
    | Unregistering(chat: Chat, call: nat)
    | Reaping(chat: Chat)
    | Stopping(call: nat)

  /** What has become of a call. `TakenOut` is of a call that a Stop has removed by key, though it goes
      on to stop another one. */
  datatype Fate = New(thread: nat) | Registered(chat: Chat) | Doomed(thread: nat) | Stopped | TakenOut

  datatype State = State(
    calls: map<Chat, nat>,
    createMu: map<Chat, nat>,
    mutexes: nat,
    holders: map<nat, nat>,
    threads: map<nat, Thread>,
    fates: seq<Fate>)

  const INITIAL := State(map[], map[], 0, map[], map[], [])

  datatype Step =
    | Start(thread: nat, what: Thread)
    | LoadOrStoreMutex(thread: nat)
    | Lock(thread: nat)
    | Load(thread: nat)
    | Judge(thread: nat, dead: bool)
    | Delete(thread: nat)
    | StopDead(thread: nat)
    | Build(thread: nat, ok: bool)
    | Store(thread: nat)
    | Params(thread: nat, ok: bool)
    | Fail(thread: nat)
    | StopFailed(thread: nat)
    | Unlock(thread: nat)
    | LookUp(thread: nat)
    | Unregister(thread: nat)
    | Reap(thread: nat)
    | StopCall(thread: nat)

  predicate At(s: State, t: nat) { t in s.threads }

  predicate Enabled(s: State, step: Step) {
    match step
    case Start(t, what) => t !in s.threads && (what.Entered? || what.LookingUp? || what.Reaping?)
    case LoadOrStoreMutex(t) => At(s, t) && s.threads[t].Entered?
    case Lock(t) => At(s, t) && s.threads[t].AtLock? && s.threads[t].mutex !in s.holders
    case Load(t) => At(s, t) && s.threads[t].Loading?
    case Judge(t, _) => At(s, t) && s.threads[t].Judging?
    case Delete(t) => At(s, t) && s.threads[t].Deleting?
    case StopDead(t) => At(s, t) && s.threads[t].StoppingDead?
    case Build(t, _) => At(s, t) && s.threads[t].Building?
    case Store(t) => At(s, t) && s.threads[t].Storing?
    case Params(t, _) => At(s, t) && s.threads[t].Finishing?
    case Fail(t) => At(s, t) && s.threads[t].Failing?
    case StopFailed(t) => At(s, t) && s.threads[t].StoppingFailed?
    case Unlock(t) => At(s, t) && s.threads[t].Unlocking? && s.threads[t].chat in s.createMu
    case LookUp(t) => At(s, t) && s.threads[t].LookingUp?
    case Unregister(t) => At(s, t) && s.threads[t].Unregistering?
    case Reap(t) => At(s, t) && s.threads[t].Reaping?
    case StopCall(t) => At(s, t) && s.threads[t].Stopping?
  }

  function Goto(s: State, t: nat, p: Thread): State { s.(threads := s.threads[t := p]) }

  function Exit(s: State, t: nat): State { s.(threads := s.threads - {t}) }

  function WithFate(s: State, call: nat, f: Fate): State {
    s.(fates := if call < |s.fates| then s.fates[call := f] else s.fates)
  }

  /** calls.Delete(chat): the entry, if any, goes, and its call meets fate `f`. */
  function Remove(s: State, chat: Chat, f: Fate): State {
    s.(calls := s.calls - {chat},
       fates := if chat in s.calls && s.calls[chat] < |s.fates| then s.fates[s.calls[chat] := f] else s.fates)
  }

  function Apply(s: State, step: Step): State
    requires Enabled(s, step)
  {
    match step
    case Start(t, what) => Goto(s, t, what)
    case LoadOrStoreMutex(t) =>
      var chat := s.threads[t].chat;
      if chat in s.createMu then Goto(s, t, AtLock(chat, s.createMu[chat]))
      else Goto(s, t, AtLock(chat, s.mutexes)).(createMu := s.createMu[chat := s.mutexes], mutexes := s.mutexes + 1)
    case Lock(t) => Goto(s, t, Loading(s.threads[t].chat)).(holders := s.holders[s.threads[t].mutex := t])
    case Load(t) =>
      var chat := s.threads[t].chat;
      Goto(s, t, if chat in s.calls then Judging(chat, s.calls[chat]) else Building(chat))
    case Judge(t, dead) =>
      var p := s.threads[t];
      Goto(s, t, if dead then Deleting(p.chat, p.prev) else Unlocking(p.chat))
    case Delete(t) =>
      var p := s.threads[t];
      Goto(Remove(s, p.chat, Doomed(t)), t, StoppingDead(p.chat, p.prev))
    case StopDead(t) =>
      var p := s.threads[t];
      Goto(WithFate(s, p.prev, Stopped), t, Building(p.chat))
    case Build(t, ok) =>
      var chat := s.threads[t].chat;
      if ok then Goto(s, t, Storing(chat, |s.fates|)).(fates := s.fates + [New(t)])
      else Goto(s, t, Unlocking(chat))
    case Store(t) =>
      var p := s.threads[t];
      Goto(WithFate(s.(calls := s.calls[p.chat := p.call]), p.call, Registered(p.chat)), t, Finishing(p.chat))
    case Params(t, ok) =>
      var chat := s.threads[t].chat;
      Goto(s, t, if ok then Unlocking(chat) else Failing(chat))
    case Fail(t) =>
      var chat := s.threads[t].chat;
      Goto(Remove(s, chat, Doomed(t)), t,
           if chat in s.calls then StoppingFailed(chat, s.calls[chat]) else Unlocking(chat))
    case StopFailed(t) =>
      var p := s.threads[t];
      Goto(WithFate(s, p.call, Stopped), t, Unlocking(p.chat))
    case Unlock(t) => Exit(s, t).(holders := s.holders - {s.createMu[s.threads[t].chat]})
    case LookUp(t) =>
      var chat := s.threads[t].chat;
      if chat in s.calls then Goto(s, t, Unregistering(chat, s.calls[chat])) else Exit(s, t)
    case Unregister(t) =>
      var p := s.threads[t];
      var f := if p.chat in s.calls && s.calls[p.chat] == p.call then Doomed(t) else TakenOut;
      Goto(Remove(s, p.chat, f), t, Stopping(p.call))
    case Reap(t) =>
      var chat := s.threads[t].chat;
      if chat in s.calls then Goto(Remove(s, chat, Doomed(t)), t, Stopping(s.calls[chat])) else Exit(s, t)
    case StopCall(t) => Exit(WithFate(s, s.threads[t].call, Stopped), t)
  }

  predicate IsRun(s: State, run: seq<Step>)
    decreases |run|
  {
    run == [] || (Enabled(s, run[0]) && IsRun(Apply(s, run[0]), run[1..]))
  }

  function After(s: State, run: seq<Step>): State
    requires IsRun(s, run)
    decreases |run|
  {
    if run == [] then s else After(Apply(s, run[0]), run[1..])
  }

  // ---------------------------------------------------------------- the invariant

  /** Inside the section that the create mutex guards. */
  predicate Creating(p: Thread) {
    p.Loading? || p.Judging? || p.Deleting? || p.StoppingDead? || p.Building? || p.Storing? || p.Finishing?
    || p.Failing? || p.StoppingFailed? || p.Unlocking?
  }

  /** What a creator knows of its chat's entry. */
  predicate EntryOk(calls: map<Chat, nat>, p: Thread) {
    match p
    case Judging(chat, prev) => chat in calls ==> calls[chat] == prev
    case Deleting(chat, prev) => chat in calls ==> calls[chat] == prev
    case StoppingDead(chat, _) => chat !in calls
    case Building(chat) => chat !in calls
    case Storing(chat, _) => chat !in calls
    case _ => true
  }

  predicate MutexOk(p: Thread, t: nat, createMu: map<Chat, nat>, holders: map<nat, nat>) {
    && (p.AtLock? ==> p.chat in createMu && createMu[p.chat] == p.mutex)
    && (Creating(p) ==> p.chat in createMu && createMu[p.chat] in holders && holders[createMu[p.chat]] == t)
  }

  predicate ThreadsOk(s: State) {
    && (forall t {:trigger s.threads[t]} | t in s.threads :: MutexOk(s.threads[t], t, s.createMu, s.holders))
    && (forall t {:trigger s.threads[t]} | t in s.threads :: EntryOk(s.calls, s.threads[t]))
    && (forall c {:trigger s.createMu[c]} | c in s.createMu :: s.createMu[c] < s.mutexes)
    && (forall c, d {:trigger s.createMu[c], s.createMu[d]} | c in s.createMu && d in s.createMu && c != d ::
          s.createMu[c] != s.createMu[d])
  }

  lemma OthersKept(s: State, t: nat, p: Thread, s': State)
    requires ThreadsOk(s) && t in s.threads
    requires s'.threads == s.threads[t := p] || s'.threads == s.threads - {t}
    requires s'.createMu == s.createMu && s'.mutexes == s.mutexes && s'.holders == s.holders
    requires forall c | c in s'.calls :: c in s.calls && s'.calls[c] == s.calls[c]
    requires s'.threads == s.threads[t := p] ==> MutexOk(p, t, s.createMu, s.holders) && EntryOk(s'.calls, p)
    ensures ThreadsOk(s')
  {
  }

  lemma LockKeeps(s: State, t: nat)
    requires ThreadsOk(s) && Enabled(s, Lock(t))
    ensures ThreadsOk(Apply(s, Lock(t)))
  {
  }

  lemma UnlockKeeps(s: State, t: nat)
    requires ThreadsOk(s) && Enabled(s, Unlock(t))
    ensures ThreadsOk(Apply(s, Unlock(t)))
  {
    assert MutexOk(s.threads[t], t, s.createMu, s.holders);
  }

  lemma MutexKeeps(s: State, t: nat)
    requires ThreadsOk(s) && Enabled(s, LoadOrStoreMutex(t))
    ensures ThreadsOk(Apply(s, LoadOrStoreMutex(t)))
  {
  }

  lemma StartKeeps(s: State, t: nat, what: Thread)
    requires ThreadsOk(s) && Enabled(s, Start(t, what))
    ensures ThreadsOk(Apply(s, Start(t, what)))
  {
  }

  lemma StoreKeeps(s: State, t: nat)
    requires ThreadsOk(s) && Enabled(s, Store(t))
    ensures ThreadsOk(Apply(s, Store(t)))
  {
    var s' := Apply(s, Store(t));
    var chat := s.threads[t].chat;
    assert MutexOk(s.threads[t], t, s.createMu, s.holders);
    forall u | u in s'.threads && u != t
      ensures EntryOk(s'.calls, s'.threads[u])
    {
      var p := s.threads[u];
      assert MutexOk(p, u, s.createMu, s.holders) && EntryOk(s.calls, p);
      assert Creating(p) ==> p.chat != chat;
    }
  }

  predicate CreatorStep(step: Step) {
    step.Load? || step.Judge? || step.Delete? || step.StopDead? || step.Build? || step.Params?
  }

  lemma CreatorKeeps(s: State, step: Step)
    requires ThreadsOk(s) && Enabled(s, step) && CreatorStep(step)
    ensures ThreadsOk(Apply(s, step))
  {
    var t := step.thread;
    assert MutexOk(s.threads[t], t, s.createMu, s.holders) && EntryOk(s.calls, s.threads[t]);
    var s' := Apply(s, step);
    OthersKept(s, t, s'.threads[t], s');
  }

  lemma RemoverKeeps(s: State, step: Step)
    requires ThreadsOk(s) && Enabled(s, step)
    requires step.Fail? || step.StopFailed? || step.LookUp? || step.Unregister? || step.Reap? || step.StopCall?
    ensures ThreadsOk(Apply(s, step))
  {
    var t := step.thread;
    assert MutexOk(s.threads[t], t, s.createMu, s.holders) && EntryOk(s.calls, s.threads[t]);
    var s' := Apply(s, step);
    OthersKept(s, t, if t in s'.threads then s'.threads[t] else s.threads[t], s');
  }

  lemma ThreadsKept(s: State, step: Step)
    requires ThreadsOk(s) && Enabled(s, step)
    ensures ThreadsOk(Apply(s, step))
  {
    var t := step.thread;
    match step
    case Start(_, what) => StartKeeps(s, t, what);
    case LoadOrStoreMutex(_) => MutexKeeps(s, t);
    case Lock(_) => LockKeeps(s, t);
    case Unlock(_) => UnlockKeeps(s, t);
    case Store(_) => StoreKeeps(s, t);
    case _ =>
      if CreatorStep(step) {
        CreatorKeeps(s, step);
      } else {
        RemoverKeeps(s, step);
      }
  }

  // ---------------------------------------------------------------- what becomes of the calls

  predicate Gone(f: Fate) { f.Doomed? || f.Stopped? || f.TakenOut? }

  predicate WillStop(p: Thread, call: nat) {
    (p.StoppingDead? && p.prev == call) || (p.StoppingFailed? && p.call == call) || (p.Stopping? && p.call == call)
  }

  /** A call that a goroutine knows was registered for its chat, and is gone once it is to be stopped. */
  predicate Known(f: Fate, chat: Chat) { !f.New? && (f.Registered? ==> f.chat == chat) }

  predicate HeldOk(p: Thread, t: nat, fates: seq<Fate>) {
    match p
    case Judging(chat, prev) => prev < |fates| && Known(fates[prev], chat)
    case Deleting(chat, prev) => prev < |fates| && Known(fates[prev], chat)
    case Unregistering(chat, call) => call < |fates| && Known(fates[call], chat)
    case StoppingDead(_, prev) => prev < |fates| && Gone(fates[prev])
    case StoppingFailed(_, call) => call < |fates| && Gone(fates[call])
    case Stopping(call) => call < |fates| && Gone(fates[call])
    case Storing(_, call) => call < |fates| && fates[call] == New(t)
    case _ => true
  }

  predicate FateOk(f: Fate, call: int, calls: map<Chat, nat>, threads: map<nat, Thread>) {
    match f
    case New(t) => t in threads && threads[t].Storing? && threads[t].call == call
    case Registered(chat) => chat in calls && calls[chat] == call
    case Doomed(t) => t in threads && call >= 0 && WillStop(threads[t], call)
    case _ => true
  }

  predicate EntriesOk(calls: map<Chat, nat>, fates: seq<Fate>) {
    forall c {:trigger calls[c]} | c in calls :: calls[c] < |fates| && fates[calls[c]] == Registered(c)
  }

  predicate FatesOk(fates: seq<Fate>, calls: map<Chat, nat>, threads: map<nat, Thread>) {
    forall i {:trigger fates[i]} | 0 <= i < |fates| :: FateOk(fates[i], i, calls, threads)
  }

  predicate HoldersOk(threads: map<nat, Thread>, fates: seq<Fate>) {
    forall t {:trigger threads[t]} | t in threads :: HeldOk(threads[t], t, fates)
  }

  predicate CallsOk(s: State) {
    EntriesOk(s.calls, s.fates) && FatesOk(s.fates, s.calls, s.threads) && HoldersOk(s.threads, s.fates)
  }

  predicate Inv(s: State) { ThreadsOk(s) && CallsOk(s) }

  lemma DeleteKeepsCalls(s: State, step: Step)
    requires Inv(s) && Enabled(s, step) && step.Delete?
    ensures CallsOk(Apply(s, step))
  {
    assert HeldOk(s.threads[step.thread], step.thread, s.fates) && EntryOk(s.calls, s.threads[step.thread]);
  }

  lemma StopDeadKeepsCalls(s: State, step: Step)
    requires Inv(s) && Enabled(s, step) && step.StopDead?
    ensures CallsOk(Apply(s, step))
  {
    assert HeldOk(s.threads[step.thread], step.thread, s.fates) && EntryOk(s.calls, s.threads[step.thread]);
  }

  lemma StoreKeepsCalls(s: State, step: Step)
    requires Inv(s) && Enabled(s, step) && step.Store?
    ensures CallsOk(Apply(s, step))
  {
    assert HeldOk(s.threads[step.thread], step.thread, s.fates) && EntryOk(s.calls, s.threads[step.thread]);
  }

  lemma FailKeepsCalls(s: State, step: Step)
    requires Inv(s) && Enabled(s, step) && step.Fail?
    ensures CallsOk(Apply(s, step))
  {
    assert HeldOk(s.threads[step.thread], step.thread, s.fates) && EntryOk(s.calls, s.threads[step.thread]);
  }

  lemma StopFailedKeepsCalls(s: State, step: Step)
    requires Inv(s) && Enabled(s, step) && step.StopFailed?
    ensures CallsOk(Apply(s, step))
  {
    assert HeldOk(s.threads[step.thread], step.thread, s.fates) && EntryOk(s.calls, s.threads[step.thread]);
  }

  /** A goroutine takes the entry of a chat out and goes on to stop a call `call` that is gone, or will be. */
  lemma TakenOutEntries(s: State, chat: Chat, f: Fate)
    requires EntriesOk(s.calls, s.fates)
    ensures EntriesOk(Remove(s, chat, f).calls, Remove(s, chat, f).fates)
  {
    forall c | c in s.calls && c != chat && chat in s.calls
      ensures s.calls[c] != s.calls[chat]
    {
      assert s.fates[s.calls[c]] == Registered(c) && s.fates[s.calls[chat]] == Registered(chat);
    }
  }

  lemma TakenOutHolders(s: State, t: nat, chat: Chat, f: Fate, p: Thread)
    requires HoldersOk(s.threads, s.fates) && EntriesOk(s.calls, s.fates) && Gone(f)
    requires HeldOk(p, t, Remove(s, chat, f).fates)
    ensures HoldersOk(s.threads[t := p], Remove(s, chat, f).fates)
  {
    forall u | u in s.threads && u != t
      ensures HeldOk(s.threads[u], u, Remove(s, chat, f).fates)
    {
      assert HeldOk(s.threads[u], u, s.fates);
    }
  }

  lemma TakenOutFates(s: State, t: nat, chat: Chat, f: Fate, p: Thread)
    requires CallsOk(s) && t in s.threads && !s.threads[t].Storing? && (forall call :: !WillStop(s.threads[t], call))
    requires f == TakenOut || (f == Doomed(t) && (chat in s.calls ==> WillStop(p, s.calls[chat])))
    ensures FatesOk(Remove(s, chat, f).fates, Remove(s, chat, f).calls, s.threads[t := p])
  {
    var s' := Remove(s, chat, f);
    forall i | 0 <= i < |s'.fates|
      ensures FateOk(s'.fates[i], i, s'.calls, s.threads[t := p])
    {
      assert FateOk(s.fates[i], i, s.calls, s.threads);
    }
  }

  lemma TakenOutKeeps(s: State, t: nat, chat: Chat, f: Fate, p: Thread)
    requires CallsOk(s) && t in s.threads && !s.threads[t].Storing? && (forall call :: !WillStop(s.threads[t], call))
    requires f == TakenOut || (f == Doomed(t) && (chat in s.calls ==> WillStop(p, s.calls[chat])))
    requires HeldOk(p, t, Remove(s, chat, f).fates)
    ensures CallsOk(Goto(Remove(s, chat, f), t, p))
  {
    TakenOutEntries(s, chat, f);
    TakenOutHolders(s, t, chat, f, p);
    TakenOutFates(s, t, chat, f, p);
  }

  lemma UnregisterKeepsCalls(s: State, step: Step)
    requires Inv(s) && Enabled(s, step) && step.Unregister?
    ensures CallsOk(Apply(s, step))
  {
    var t, p := step.thread, s.threads[step.thread];
    assert HeldOk(p, t, s.fates);
    var f := if p.chat in s.calls && s.calls[p.chat] == p.call then Doomed(t) else TakenOut;
    KnownIsGone(s, p.chat, p.call, f);
    TakenOutKeeps(s, t, p.chat, f, Stopping(p.call));
  }

  /** Once a chat's entry is out, no call known to have been registered for the chat is registered. */
  lemma KnownIsGone(s: State, chat: Chat, call: nat, f: Fate)
    requires CallsOk(s) && call < |s.fates| && Known(s.fates[call], chat) && Gone(f)
    ensures Gone(Remove(s, chat, f).fates[call])
  {
    assert FateOk(s.fates[call], call, s.calls, s.threads);
  }

  lemma ReapKeepsCalls(s: State, step: Step)
    requires Inv(s) && Enabled(s, step) && step.Reap?
    ensures CallsOk(Apply(s, step))
  {
    var t, chat := step.thread, s.threads[step.thread].chat;
    if chat in s.calls {
      assert s.fates[s.calls[chat]] == Registered(chat);
      KnownIsGone(s, chat, s.calls[chat], Doomed(t));
      TakenOutKeeps(s, t, chat, Doomed(t), Stopping(s.calls[chat]));
    } else {
      MoveKeepsCalls(s, t, Apply(s, step));
    }
  }

  lemma StopCallKeepsCalls(s: State, step: Step)
    requires Inv(s) && Enabled(s, step) && step.StopCall?
    ensures CallsOk(Apply(s, step))
  {
    assert HeldOk(s.threads[step.thread], step.thread, s.fates) && EntryOk(s.calls, s.threads[step.thread]);
  }

  lemma BuildKeepsCalls(s: State, step: Step)
    requires Inv(s) && Enabled(s, step) && step.Build?
    ensures CallsOk(Apply(s, step))
  {
    assert HeldOk(s.threads[step.thread], step.thread, s.fates) && EntryOk(s.calls, s.threads[step.thread]);
  }

  predicate Quiet(step: Step) {
    step.Start? || step.LoadOrStoreMutex? || step.Lock? || step.Load? || step.Judge? || step.Params? || step.Unlock?
    || step.LookUp?
  }

  /** A goroutine that has no call to store or to stop moves on, or exits. */
  lemma MoveKeepsCalls(s: State, t: nat, s': State)
    requires CallsOk(s) && s'.calls == s.calls && s'.fates == s.fates
    requires s'.threads == s.threads - {t} || (t in s'.threads && s'.threads == s.threads[t := s'.threads[t]])
    requires t in s.threads ==> !s.threads[t].Storing? && forall call :: !WillStop(s.threads[t], call)
    requires t in s'.threads ==> HeldOk(s'.threads[t], t, s.fates)
    ensures CallsOk(s')
  {
  }

  lemma OtherKeepsCalls(s: State, step: Step)
    requires Inv(s) && Enabled(s, step) && Quiet(step)
    ensures CallsOk(Apply(s, step))
  {
    MoveKeepsCalls(s, step.thread, Apply(s, step));
  }

  lemma StepKeeps(s: State, step: Step)
    requires Inv(s) && Enabled(s, step)
    ensures Inv(Apply(s, step))
  {
    ThreadsKept(s, step);
    match step
    case Delete(_) => DeleteKeepsCalls(s, step);
    case StopDead(_) => StopDeadKeepsCalls(s, step);
    case Build(_, _) => BuildKeepsCalls(s, step);
    case Store(_) => StoreKeepsCalls(s, step);
    case Fail(_) => FailKeepsCalls(s, step);
    case StopFailed(_) => StopFailedKeepsCalls(s, step);
    case Unregister(_) => UnregisterKeepsCalls(s, step);
    case Reap(_) => ReapKeepsCalls(s, step);
    case StopCall(_) => StopCallKeepsCalls(s, step);
    case _ => OtherKeepsCalls(s, step);
  }

  lemma {:induction false} RunKeeps(s: State, run: seq<Step>)
    requires Inv(s) && IsRun(s, run)
    ensures Inv(After(s, run))
    decreases |run|
  {
    if run != [] {
      StepKeeps(s, run[0]);
      RunKeeps(Apply(s, run[0]), run[1..]);
    }
  }

  // ---------------------------------------------------------------- what a run guarantees

  /** At most one goroutine is inside a chat's create section. */
  lemma OneCreatorPerChat(run: seq<Step>, t: nat, u: nat)
    requires IsRun(INITIAL, run)
    requires var s := After(INITIAL, run);
             && t in s.threads && u in s.threads && Creating(s.threads[t]) && Creating(s.threads[u])
             && s.threads[t].chat == s.threads[u].chat
    ensures t == u
  {
    RunKeeps(INITIAL, run);
    var s := After(INITIAL, run);
    assert MutexOk(s.threads[t], t, s.createMu, s.holders) && MutexOk(s.threads[u], u, s.createMu, s.holders);
  }

  /** Store never overwrites a registered call. */
  lemma StoreOverwritesNothing(run: seq<Step>, t: nat)
    requires IsRun(INITIAL, run) && Enabled(After(INITIAL, run), Store(t))
    ensures var s := After(INITIAL, run); s.threads[t].chat !in s.calls
  {
    RunKeeps(INITIAL, run);
    var s := After(INITIAL, run);
    assert EntryOk(s.calls, s.threads[t]);
  }

  /** callIsLive removes no call but the one it judged dead. */
  lemma DeleteRemovesOnlyTheDead(run: seq<Step>, t: nat)
    requires IsRun(INITIAL, run) && Enabled(After(INITIAL, run), Delete(t))
    ensures var s := After(INITIAL, run);
            var p := s.threads[t];
            p.chat in s.calls ==> s.calls[p.chat] == p.prev
  {
    RunKeeps(INITIAL, run);
    var s := After(INITIAL, run);
    assert EntryOk(s.calls, s.threads[t]);
  }

  /** Every call that was ever made is about to be registered by its maker, or registered, or about to
      be stopped by a goroutine, or has been stopped -- or a Stop has taken it out for another. */
  lemma NoOtherCallIsLost(run: seq<Step>, call: nat)
    requires IsRun(INITIAL, run) && call < |After(INITIAL, run).fates|
    ensures var s := After(INITIAL, run);
            || (exists t :: t in s.threads && s.threads[t].Storing? && s.threads[t].call == call)
            || (exists chat :: chat in s.calls && s.calls[chat] == call)
            || (exists t :: t in s.threads && WillStop(s.threads[t], call))
            || s.fates[call].Stopped?
            || s.fates[call].TakenOut?
  {
    RunKeeps(INITIAL, run);
    var s := After(INITIAL, run);
    assert FateOk(s.fates[call], call, s.calls, s.threads);
  }

  // ---------------------------------------------------------------- calls that nobody is left to stop

  /** The goroutine has the call at hand: it will store it, may take it out, or will stop it. */
  predicate HasAtHand(p: Thread, call: nat) {
    || (p.Storing? && p.call == call)
    || (p.Judging? && p.prev == call)
    || (p.Deleting? && p.prev == call)
    || (p.Unregistering? && p.call == call)
    || WillStop(p, call)
  }

  predicate InRegistry(calls: map<Chat, nat>, call: nat) { exists c :: c in calls && calls[c] == call }

  /** Some goroutine but `t` has the call at hand. */
  predicate OthersHave(threads: map<nat, Thread>, t: int, call: nat) {
    exists u :: u in threads && u != t && HasAtHand(threads[u], call)
  }

  /** The call was made and not stopped, and neither the registry nor any goroutine knows it any more. */
  predicate Orphan(s: State, call: nat) {
    && call < |s.fates| && !s.fates[call].Stopped?
    && !InRegistry(s.calls, call)
    && !OthersHave(s.threads, -1, call)
  }

  /** Stop takes out, by key, a call that is not the one it looked up. */
  predicate TakesOutAnother(s: State, step: Step, call: nat)
    requires Enabled(s, step)
  {
    step.Unregister? && var p := s.threads[step.thread];
    p.chat in s.calls && s.calls[p.chat] == call && call != p.call
  }

  /** callIsLive finds a call alive that has been taken out since it was loaded, and not been stopped. */
  predicate FindsRemovedAlive(s: State, step: Step, call: nat)
    requires Enabled(s, step)
  {
    step.Judge? && !step.dead && s.threads[step.thread].prev == call && !InRegistry(s.calls, call)
    && call < |s.fates| && !s.fates[call].Stopped?
  }

  lemma StoppedStays(s: State, step: Step, call: nat)
    requires Inv(s) && Enabled(s, step) && call < |s.fates| && s.fates[call].Stopped?
    ensures Apply(s, step).fates[call].Stopped?
  {
    if step.Store? {
      assert HeldOk(s.threads[step.thread], step.thread, s.fates);
    }
  }

  lemma OthersKeep(s: State, step: Step, call: nat)
    requires Enabled(s, step) && OthersHave(s.threads, step.thread, call)
    ensures OthersHave(Apply(s, step).threads, -1, call)
  {
    var u :| u in s.threads && u != step.thread && HasAtHand(s.threads[u], call);
    assert Apply(s, step).threads[u] == s.threads[u];
  }

  /** A goroutine that has a call at hand passes it on, but for callIsLive finding it alive. */
  lemma MoverKeeps(s: State, step: Step, call: nat)
    requires Inv(s) && Enabled(s, step) && step.thread in s.threads && HasAtHand(s.threads[step.thread], call)
    requires !(step.Judge? && !step.dead)
    ensures !Orphan(Apply(s, step), call)
  {
    var t, s' := step.thread, Apply(s, step);
    assert HeldOk(s.threads[t], t, s.fates);
    if step.Store? {
      assert s'.calls[s.threads[t].chat] == call;
    } else if t in s'.threads && HasAtHand(s'.threads[t], call) {
      assert OthersHave(s'.threads, -1, call);
    }
  }

  /** The registry gives a call up only to a goroutine that will stop it, but for Stop's delete by key. */
  lemma RegistryKeeps(s: State, step: Step, call: nat)
    requires Inv(s) && Enabled(s, step) && InRegistry(s.calls, call) && !TakesOutAnother(s, step, call)
    ensures InRegistry(Apply(s, step).calls, call) || OthersHave(Apply(s, step).threads, -1, call)
  {
    var c :| c in s.calls && s.calls[c] == call;
    var t, s' := step.thread, Apply(s, step);
    if c in s'.calls && s'.calls[c] == call {
    } else {
      assert EntryOk(s.calls, s.threads[t]);
      assert HasAtHand(s'.threads[t], call);
    }
  }

  lemma KeptUnless(s: State, step: Step, call: nat)
    requires Inv(s) && Enabled(s, step) && call < |s.fates| && !Orphan(s, call) && Orphan(Apply(s, step), call)
    ensures TakesOutAnother(s, step, call) || FindsRemovedAlive(s, step, call)
    ensures !OthersHave(s.threads, step.thread, call)
  {
    if s.fates[call].Stopped? {
      StoppedStays(s, step, call);
    }
    if OthersHave(s.threads, step.thread, call) {
      OthersKeep(s, step, call);
    }
    if InRegistry(s.calls, call) && !TakesOutAnother(s, step, call) {
      RegistryKeeps(s, step, call);
    }
    if !InRegistry(s.calls, call) {
      var u :| u in s.threads && u != -1 && HasAtHand(s.threads[u], call);
      if !(step.Judge? && !step.dead) {
        MoverKeeps(s, step, call);
      }
    }
  }

  lemma TakingOutOrphans(s: State, step: Step, call: nat)
    requires Inv(s) && Enabled(s, step) && TakesOutAnother(s, step, call) && !OthersHave(s.threads, step.thread, call)
    ensures Orphan(Apply(s, step), call)
  {
    var t, s' := step.thread, Apply(s, step);
    assert s.fates[call] == Registered(s.threads[t].chat);
    forall c | c in s'.calls
      ensures s'.calls[c] != call
    {
      assert s.fates[s.calls[c]] == Registered(c);
    }
  }

  lemma FindingAliveOrphans(s: State, step: Step, call: nat)
    requires Enabled(s, step) && FindsRemovedAlive(s, step, call) && !OthersHave(s.threads, step.thread, call)
    ensures Orphan(Apply(s, step), call)
  {
  }

  /** A step leaves a call with nobody to stop it if and only if no other goroutine has it at hand, and
      either the step is Stop's removal by key of a call it has not looked up, or callIsLive finds the call
      alive when such a removal has already taken it out. */
  lemma OrphanedExactly(run: seq<Step>, step: Step, call: nat)
    requires IsRun(INITIAL, run) && Enabled(After(INITIAL, run), step)
    requires call < |After(INITIAL, run).fates| && !Orphan(After(INITIAL, run), call)
    ensures var s := After(INITIAL, run);
            Orphan(Apply(s, step), call) <==>
            && (TakesOutAnother(s, step, call) || FindsRemovedAlive(s, step, call))
            && !OthersHave(s.threads, step.thread, call)
  {
    RunKeeps(INITIAL, run);
    var s := After(INITIAL, run);
    if Orphan(Apply(s, step), call) {
      KeptUnless(s, step, call);
    } else if !OthersHave(s.threads, step.thread, call) {
      if TakesOutAnother(s, step, call) {
        TakingOutOrphans(s, step, call);
      } else if FindsRemovedAlive(s, step, call) {
        FindingAliveOrphans(s, step, call);
      }
    }
  }

  lemma NobodyPicksUp(s: State, step: Step, call: nat)
    requires Enabled(s, step) && Orphan(s, call)
    ensures !OthersHave(Apply(s, step).threads, -1, call)
  {
    var t, s' := step.thread, Apply(s, step);
    assert t in s.threads ==> !HasAtHand(s.threads[t], call);
    forall u | u in s'.threads
      ensures !HasAtHand(s'.threads[u], call)
    {
      assert u == t || !HasAtHand(s.threads[u], call);
    }
  }

  lemma NobodyRegisters(s: State, step: Step, call: nat)
    requires Enabled(s, step) && Orphan(s, call)
    ensures !InRegistry(Apply(s, step).calls, call)
  {
    assert step.thread in s.threads ==> !HasAtHand(s.threads[step.thread], call);
  }

  lemma NobodyStops(s: State, step: Step, call: nat)
    requires Enabled(s, step) && Orphan(s, call)
    ensures !Apply(s, step).fates[call].Stopped?
  {
    assert step.thread in s.threads ==> !HasAtHand(s.threads[step.thread], call);
  }

  lemma OrphanStays(s: State, step: Step, call: nat)
    requires Enabled(s, step) && Orphan(s, call)
    ensures Orphan(Apply(s, step), call)
  {
    NobodyPicksUp(s, step, call);
    NobodyRegisters(s, step, call);
    NobodyStops(s, step, call);
  }

  /** An orphan is never stopped, whatever happens later. */
  lemma {:induction false} OrphansStayForGood(s: State, run: seq<Step>, call: nat)
    requires IsRun(s, run) && Orphan(s, call)
    ensures Orphan(After(s, run), call)
    decreases |run|
  {
    if run != [] {
      OrphanStays(s, run[0], call);
      OrphansStayForGood(Apply(s, run[0]), run[1..], call);
    }
  }

  // ---------------------------------------------------------------- a run that orphans a call

  predicate Leads(run: seq<Step>, s: State) { IsRun(INITIAL, run) && After(INITIAL, run) == s }

  ghost predicate Reachable(s: State) { exists run :: Leads(run, s) }

  lemma {:induction false} RunAppend(s: State, run: seq<Step>, step: Step)
    requires IsRun(s, run) && Enabled(After(s, run), step)
    ensures IsRun(s, run + [step]) && After(s, run + [step]) == Apply(After(s, run), step)
    decreases |run|
  {
    if run == [] {
      assert [step][1..] == [] && IsRun(Apply(s, step), []);
    } else {
      RunAppend(Apply(s, run[0]), run[1..], step);
      assert (run + [step])[1..] == run[1..] + [step];
    }
  }

  lemma Go(s: State, step: Step) returns (t: State)
    requires Reachable(s) && Enabled(s, step)
    ensures Reachable(t) && t == Apply(s, step)
  {
    t := Apply(s, step);
    var run :| Leads(run, s);
    RunAppend(INITIAL, run, step);
    assert Leads(run + [step], t);
  }

  /** Goroutine 0, holding mutex 0, makes a call for chat 7 and lets go. */
  lemma Creates(s: State) returns (t: State)
    requires Reachable(s) && 0 in s.threads && s.threads[0] == Building(7)
    requires s.createMu == map[7 := 0] && s.holders == map[0 := 0]
    ensures Reachable(t)
    ensures t == State(s.calls[7 := |s.fates|], s.createMu, s.mutexes, map[], s.threads - {0},
                       s.fates + [Registered(7)])
  {
    t := BuildsAndStores(s);
    t := Go(t, Params(0, true));
    t := Go(t, Unlock(0));
    assert t.threads == s.threads - {0} && t.holders == map[];
  }

  lemma BuildsAndStores(s: State) returns (t: State)
    requires Reachable(s) && 0 in s.threads && s.threads[0] == Building(7)
    ensures Reachable(t)
    ensures t == s.(calls := s.calls[7 := |s.fates|], threads := s.threads[0 := Finishing(7)],
                    fates := s.fates + [Registered(7)])
  {
    t := Go(s, Build(0, true));
    t := Go(t, Store(0));
    assert t.fates == s.fates + [Registered(7)];
    assert t.threads == s.threads[0 := Finishing(7)];
  }

  /** Goroutine 0 takes the mutex of chat 7, which exists already, and looks at the chat's entry. */
  lemma Enters(s: State) returns (t: State)
    requires Reachable(s) && 0 !in s.threads && s.createMu == map[7 := 0] && s.holders == map[] && 7 in s.calls
    ensures Reachable(t) && t == s.(holders := map[0 := 0], threads := s.threads[0 := Judging(7, s.calls[7])])
  {
    t := Go(s, Start(0, Entered(7)));
    t := Go(t, LoadOrStoreMutex(0));
    t := Go(t, Lock(0));
    t := Go(t, Load(0));
    assert t.threads == s.threads[0 := Judging(7, s.calls[7])];
  }

  lemma FirstCall()
    ensures Reachable(State(map[7 := 0], map[7 := 0], 1, map[], map[], [Registered(7)]))
  {
    assert Leads([], INITIAL);
    var s := Go(INITIAL, Start(0, Entered(7)));
    s := Go(s, LoadOrStoreMutex(0));
    s := Go(s, Lock(0));
    s := Go(s, Load(0));
    assert s == State(map[], map[7 := 0], 1, map[0 := 0], map[0 := Building(7)], []);
    s := Creates(s);
    assert s.threads == map[] && s.fates == [Registered(7)];
  }

  /** Goroutine 1, which has looked call 0 up in order to stop it, waits while goroutine 0 finds that the
      call has failed, takes it out and stops it. */
  lemma FailedCallRemoved()
    ensures Reachable(State(map[], map[7 := 0], 1, map[0 := 0], map[1 := Unregistering(7, 0), 0 := Building(7)],
                            [Stopped]))
  {
    FirstCall();
    var s := Go(State(map[7 := 0], map[7 := 0], 1, map[], map[], [Registered(7)]), Start(1, LookingUp(7)));
    s := Go(s, LookUp(1));
    assert s.threads == map[1 := Unregistering(7, 0)];
    s := Enters(s);
    s := DeadIsStopped(s);
    assert s.threads == map[1 := Unregistering(7, 0), 0 := Building(7)];
  }

  lemma DeadIsStopped(s: State) returns (t: State)
    requires Reachable(s) && 0 in s.threads && s.threads[0] == Judging(7, 0)
    requires s.calls == map[7 := 0] && s.fates == [Registered(7)]
    ensures Reachable(t) && t == s.(calls := map[], threads := s.threads[0 := Building(7)], fates := [Stopped])
  {
    t := Go(s, Judge(0, true));
    t := Go(t, Delete(0));
    assert t.calls == map[];
    t := Go(t, StopDead(0));
    assert t.threads == s.threads[0 := Building(7)] && t.fates == [Stopped];
  }

  /** A Stop that looked its call up before the call failed and was replaced takes the replacement out
      of the registry; it stops the old call again, and then nobody is left to stop the new one. */
  lemma StopRemovesNewerCall() returns (s: State)
    ensures Reachable(s) && s.calls == map[] && s.threads == map[] && s.fates == [Stopped, TakenOut]
    ensures Orphan(s, 1)
  {
    FailedCallRemoved();
    s := Creates(State(map[], map[7 := 0], 1, map[0 := 0], map[1 := Unregistering(7, 0), 0 := Building(7)], [Stopped]));
    assert s.threads == map[1 := Unregistering(7, 0)] && s.calls == map[7 := 1];
    s := Go(s, Unregister(1));
    s := Go(s, StopCall(1));
    assert s.threads == map[] && s.calls == map[];
  }

  // ---------------------------------------------------------------- the object

  datatype StopResult = Ok | Closed | NotFound

  /** The client's registry, each operation run without interference. `dead` says whether the
      registered call's connection has failed or closed; `stopped` collects the calls stopped. */
  class Client {
    var calls: map<Chat, nat>
    var stopped: set<nat>
    var next: nat
    var closed: bool

    ghost predicate Valid()
      reads this
    {
      forall c | c in calls :: calls[c] < next
    }

    constructor ()
      ensures Valid() && calls == map[] && stopped == {} && next == 0 && !closed
    {
      calls, stopped, next, closed := map[], {}, 0, false;
    }

    method CallIsLive(chat: Chat, dead: bool) returns (live: bool)
      modifies this`calls, this`stopped
      ensures live == (chat in old(calls) && !dead)
      ensures calls == if live then old(calls) else old(calls) - {chat}
      ensures stopped == if live || chat !in old(calls) then old(stopped) else old(stopped) + {old(calls)[chat]}
    {
      if chat !in calls {
        assert calls - {chat} == calls;
        return false;
      }
      var prev := calls[chat];
      if dead {
        calls := calls - {chat};
        stopped := stopped + {prev};
        return false;
      }
      live := true;
    }

    method Reap(chat: Chat)
      modifies this`calls, this`stopped
      ensures calls == old(calls) - {chat}
      ensures stopped == if chat in old(calls) then old(stopped) + {old(calls)[chat]} else old(stopped)
    {
      if chat !in calls {
        assert calls - {chat} == calls;
        return;
      }
      var v := calls[chat];
      calls := calls - {chat};
      stopped := stopped + {v};
    }

    /** CreateCall; `built` and `params` say whether the call can be made and yields its parameters. A
        call that was made but yields none is unregistered and stopped again. */
    method CreateCall(chat: Chat, dead: bool, built: bool, params: bool) returns (ok: bool)
      requires Valid()
      modifies this`calls, this`stopped, this`next
      ensures Valid()
      ensures ok == (!closed && (chat in old(calls) ==> dead) && built && params)
      ensures ok ==> calls == old(calls)[chat := old(next)]
      ensures !ok ==> calls == if closed || (chat in old(calls) && !dead) then old(calls) else old(calls) - {chat}
      ensures next == if !closed && (chat in old(calls) ==> dead) && built then old(next) + 1 else old(next)
      ensures stopped == old(stopped)
                       + (if !closed && chat in old(calls) && dead then {old(calls)[chat]} else {})
                       + (if !closed && (chat in old(calls) ==> dead) && built && !params then {old(next)} else {})
    {
      if closed {
        return false;
      }
      var live := CallIsLive(chat, dead);
      if live || !built {
        return false;
      }
      var call := next;
      next := next + 1;
      calls := calls[chat := call];
      if !params {
        Reap(chat);
        return false;
      }
      assert calls == old(calls)[chat := old(next)];
      ok := true;
    }

    /** A closed client stops nothing more: its calls are Close's to stop. */
    method Stop(chat: Chat) returns (r: StopResult)
      modifies this`calls, this`stopped
      ensures r == if closed then Closed else if chat in old(calls) then Ok else NotFound
      ensures calls == if closed then old(calls) else old(calls) - {chat}
      ensures stopped == if r.Ok? then old(stopped) + {old(calls)[chat]} else old(stopped)
    {
      if closed {
        return Closed;
      }
      if chat !in calls {
        assert calls - {chat} == calls;
        return NotFound;
      }
      var call := calls[chat];
      calls := calls - {chat};
      stopped := stopped + {call};
      r := Ok;
    }
  }
}
