/** The client's operations, run in the registry's transition system from beginning to end without
    interference of other goroutines, do to the registry what the methods of the client object do. */
module RegistrySections {
  import opened Registry

  // ---------------------------------------------------------------- mutexes are new when they are made

  predicate HoldersOld(s: State) { forall m | m in s.holders :: m < s.mutexes }

  lemma StepKeepsHolders(s: State, step: Step)
    requires ThreadsOk(s) && HoldersOld(s) && Enabled(s, step)
    ensures HoldersOld(Apply(s, step))
  {
    if step.Lock? {
      assert MutexOk(s.threads[step.thread], step.thread, s.createMu, s.holders);
    }
  }

  lemma {:induction false} RunKeepsHolders(s: State, run: seq<Step>)
    requires Inv(s) && HoldersOld(s) && IsRun(s, run)
    ensures HoldersOld(After(s, run))
    decreases |run|
  {
    if run != [] {
      StepKeepsHolders(s, run[0]);
      StepKeeps(s, run[0]);
      RunKeepsHolders(Apply(s, run[0]), run[1..]);
    }
  }

  lemma ReachableHolders(s: State)
    requires Reachable(s)
    ensures HoldersOld(s) && Inv(s)
  {
    var run :| Leads(run, s);
    RunKeeps(INITIAL, run);
    RunKeepsHolders(INITIAL, run);
  }

  // ---------------------------------------------------------------- the create section

  /** Nobody else is creating a call for the chat. */
  predicate MutexFree(s: State, chat: Chat) { chat in s.createMu ==> s.createMu[chat] !in s.holders }

  /** Only the create mutexes and their holders may differ. */
  predicate SameCalls(s: State, u: State) { u.calls == s.calls && u.fates == s.fates }

  /** Goroutine `t` is at `p`, all others where they were; it holds the chat's mutex, which was free. */
  predicate Inside(s: State, u: State, t: nat, chat: Chat, p: Thread) {
    && t !in s.threads && u.threads == s.threads[t := p]
    && chat in u.createMu && u.createMu[chat] !in s.holders
    && u.holders == s.holders[u.createMu[chat] := t]
  }

  lemma GetsMutex(s: State, t: nat, chat: Chat) returns (u: State)
    requires Reachable(s) && t !in s.threads && MutexFree(s, chat) && HoldersOld(s)
    ensures Reachable(u) && SameCalls(s, u) && u.holders == s.holders
    ensures chat in u.createMu && u.createMu[chat] !in s.holders
    ensures u.threads == s.threads[t := AtLock(chat, u.createMu[chat])]
  {
    u := Go(s, Start(t, Entered(chat)));
    u := Go(u, LoadOrStoreMutex(t));
    assert u.threads == s.threads[t := AtLock(chat, u.createMu[chat])];
  }

  lemma TakesMutex(s: State, t: nat, chat: Chat) returns (u: State)
    requires Reachable(s) && t !in s.threads && MutexFree(s, chat)
    ensures Reachable(u) && Inside(s, u, t, chat, Loading(chat)) && SameCalls(s, u)
  {
    ReachableHolders(s);
    u := GetsMutex(s, t, chat);
    u := Go(u, Lock(t));
    assert u.threads == s.threads[t := Loading(chat)];
  }

  lemma LetsGo(s: State, v: State, t: nat, chat: Chat) returns (u: State)
    requires Reachable(v) && Inside(s, v, t, chat, Unlocking(chat))
    ensures Reachable(u) && SameCalls(v, u) && u.threads == s.threads && u.holders == s.holders
  {
    u := Go(v, Unlock(t));
    assert u.threads == s.threads && u.holders == s.holders;
  }

  /** One step of the goroutine inside the section. */
  lemma InsideStep(s: State, v: State, t: nat, chat: Chat, step: Step) returns (u: State)
    requires Reachable(v) && t in v.threads && Inside(s, v, t, chat, v.threads[t])
    requires step.thread == t && Enabled(v, step) && t in Apply(v, step).threads
    requires Apply(v, step).createMu == v.createMu && Apply(v, step).holders == v.holders
    requires Apply(v, step).threads == v.threads[t := Apply(v, step).threads[t]]
    ensures Reachable(u) && u == Apply(v, step) && Inside(s, u, t, chat, u.threads[t])
  {
    u := Go(v, step);
    assert u.threads == s.threads[t := u.threads[t]];
  }

  /** callIsLive: a call that is not dead stays. */
  lemma KeepsLive(s: State, v: State, t: nat, chat: Chat) returns (u: State)
    requires Reachable(v) && Inside(s, v, t, chat, Loading(chat)) && chat in v.calls
    ensures Reachable(u) && Inside(s, u, t, chat, Unlocking(chat)) && SameCalls(v, u)
  {
    u := InsideStep(s, v, t, chat, Load(t));
    u := InsideStep(s, u, t, chat, Judge(t, false));
  }

  /** callIsLive: a dead call is found and taken out. */
  lemma TakesOutDead(s: State, v: State, t: nat, chat: Chat) returns (u: State)
    requires Reachable(v) && Inside(s, v, t, chat, Loading(chat)) && chat in v.calls
    requires v.calls[chat] < |v.fates|
    ensures Reachable(u) && Inside(s, u, t, chat, StoppingDead(chat, v.calls[chat]))
    ensures u.calls == v.calls - {chat} && u.fates == v.fates[v.calls[chat] := Doomed(t)]
  {
    u := InsideStep(s, v, t, chat, Load(t));
    u := InsideStep(s, u, t, chat, Judge(t, true));
    u := InsideStep(s, u, t, chat, Delete(t));
  }

  lemma StopsDead(s: State, v: State, t: nat, chat: Chat, prev: nat) returns (u: State)
    requires Reachable(v) && Inside(s, v, t, chat, StoppingDead(chat, prev)) && prev < |v.fates|
    ensures Reachable(u) && Inside(s, u, t, chat, Building(chat))
    ensures u.calls == v.calls && u.fates == v.fates[prev := Stopped]
  {
    u := InsideStep(s, v, t, chat, StopDead(t));
  }

  /** callIsLive finds no live call, and leaves none. */
  lemma ClearsChat(s: State, v: State, t: nat, chat: Chat) returns (u: State)
    requires Reachable(v) && Inside(s, v, t, chat, Loading(chat))
    ensures Reachable(u) && Inside(s, u, t, chat, Building(chat)) && u.calls == v.calls - {chat}
    ensures chat in v.calls ==> v.calls[chat] < |v.fates|
    ensures u.fates == if chat in v.calls then v.fates[v.calls[chat] := Stopped] else v.fates
  {
    ReachableHolders(v);
    if chat in v.calls {
      u := TakesOutDead(s, v, t, chat);
      u := StopsDead(s, u, t, chat, v.calls[chat]);
    } else {
      u := InsideStep(s, v, t, chat, Load(t));
      assert v.calls - {chat} == v.calls;
    }
  }

  lemma BuildsAndStores(s: State, v: State, t: nat, chat: Chat) returns (u: State)
    requires Reachable(v) && Inside(s, v, t, chat, Building(chat))
    ensures Reachable(u) && Inside(s, u, t, chat, Finishing(chat))
    ensures u.calls == v.calls[chat := |v.fates|] && u.fates == v.fates + [Registered(chat)]
  {
    u := InsideStep(s, v, t, chat, Build(t, true));
    u := InsideStep(s, u, t, chat, Store(t));
    assert u.fates == v.fates + [Registered(chat)];
  }

  lemma TakesOutFailed(s: State, v: State, t: nat, chat: Chat) returns (u: State)
    requires Reachable(v) && Inside(s, v, t, chat, Finishing(chat))
    requires chat in v.calls && v.calls[chat] < |v.fates|
    ensures Reachable(u) && Inside(s, u, t, chat, StoppingFailed(chat, v.calls[chat]))
    ensures u.calls == v.calls - {chat} && u.fates == v.fates[v.calls[chat] := Doomed(t)]
  {
    u := InsideStep(s, v, t, chat, Params(t, false));
    u := InsideStep(s, u, t, chat, Fail(t));
  }

  lemma StopsFailed(s: State, v: State, t: nat, chat: Chat, call: nat) returns (u: State)
    requires Reachable(v) && Inside(s, v, t, chat, StoppingFailed(chat, call)) && call < |v.fates|
    ensures Reachable(u) && Inside(s, u, t, chat, Unlocking(chat))
    ensures u.calls == v.calls && u.fates == v.fates[call := Stopped]
  {
    u := InsideStep(s, v, t, chat, StopFailed(t));
  }

  /** The call is made and stored, and yields its parameters or is taken out and stopped again. */
  lemma MakesCall(s: State, v: State, t: nat, chat: Chat, built: bool, params: bool) returns (u: State)
    requires Reachable(v) && Inside(s, v, t, chat, Building(chat)) && chat !in v.calls
    ensures Reachable(u) && Inside(s, u, t, chat, Unlocking(chat))
    ensures u.calls == if built && params then v.calls[chat := |v.fates|] else v.calls
    ensures u.fates == v.fates + if !built then [] else if params then [Registered(chat)] else [Stopped]
  {
    if !built {
      u := InsideStep(s, v, t, chat, Build(t, false));
    } else {
      u := BuildsAndStores(s, v, t, chat);
      if params {
        u := InsideStep(s, u, t, chat, Params(t, true));
      } else {
        u := TakesOutFailed(s, u, t, chat);
        u := StopsFailed(s, u, t, chat, |v.fates|);
        assert u.calls == v.calls && u.fates == v.fates + [Stopped];
      }
    }
  }

  /** CreateCall of an open client; StartRTMP is the case of a call that is always built and always yields
      its parameters. A live call stays; a dead one is stopped; a call is registered only if it is built and
      yields its parameters; and one that yields none is stopped. */
  lemma CreateSection(s: State, t: nat, chat: Chat, dead: bool, built: bool, params: bool) returns (u: State)
    requires Reachable(s) && t !in s.threads && MutexFree(s, chat)
    ensures Reachable(u) && u.threads == s.threads && u.holders == s.holders
    ensures var live, n := chat in s.calls && !dead, |s.fates|;
            && u.calls == (if live then s.calls
                           else if built && params then s.calls[chat := n] else s.calls - {chat})
            && |u.fates| == (if !live && built then n + 1 else n)
            && forall c | 0 <= c < |u.fates| ::
                 u.fates[c].Stopped? <==>
                 || (c < n && s.fates[c].Stopped?)
                 || (chat in s.calls && dead && c == s.calls[chat])
                 || (!live && built && !params && c == n)
  {
    u := TakesMutex(s, t, chat);
    if chat in s.calls && !dead {
      u := KeepsLive(s, u, t, chat);
    } else {
      u := ClearsChat(s, u, t, chat);
      u := MakesCall(s, u, t, chat, built, params);
      assert (s.calls - {chat})[chat := |s.fates|] == s.calls[chat := |s.fates|];
    }
    u := LetsGo(s, u, t, chat);
  }

  // ---------------------------------------------------------------- Stop and reap

  /** The chat's call, if any, is out of the registry and stopped; nothing else has changed. */
  predicate TakenAndStopped(s: State, chat: Chat, u: State) {
    && u.threads == s.threads && u.holders == s.holders && u.createMu == s.createMu
    && u.calls == s.calls - {chat}
    && (chat in s.calls ==> s.calls[chat] < |s.fates|)
    && u.fates == if chat in s.calls then s.fates[s.calls[chat] := Stopped] else s.fates
  }

  lemma StopsTaken(s: State, v: State, t: nat, chat: Chat) returns (u: State)
    requires Reachable(v) && t !in s.threads && chat in s.calls && s.calls[chat] < |s.fates|
    requires v.threads == s.threads[t := Stopping(s.calls[chat])]
    requires v.holders == s.holders && v.createMu == s.createMu && v.calls == s.calls - {chat}
    requires v.fates == s.fates[s.calls[chat] := Doomed(t)]
    ensures Reachable(u) && TakenAndStopped(s, chat, u)
  {
    u := Go(v, StopCall(t));
    assert u.threads == s.threads;
    assert u.fates == s.fates[s.calls[chat] := Stopped];
  }

  lemma FindsCall(s: State, t: nat, chat: Chat) returns (u: State)
    requires Reachable(s) && t !in s.threads && chat in s.calls
    ensures Reachable(u) && u == s.(threads := s.threads[t := Unregistering(chat, s.calls[chat])])
  {
    u := Go(s, Start(t, LookingUp(chat)));
    u := Go(u, LookUp(t));
    assert u.threads == s.threads[t := Unregistering(chat, s.calls[chat])];
  }

  lemma FindsNoCall(s: State, t: nat, chat: Chat) returns (u: State)
    requires Reachable(s) && t !in s.threads && chat !in s.calls
    ensures Reachable(u) && u == s
  {
    u := Go(s, Start(t, LookingUp(chat)));
    u := Go(u, LookUp(t));
    assert u.threads == s.threads;
  }

  lemma UnregistersCall(s: State, v: State, t: nat, chat: Chat) returns (u: State)
    requires Reachable(v) && chat in s.calls && s.calls[chat] < |s.fates|
    requires v == s.(threads := s.threads[t := Unregistering(chat, s.calls[chat])])
    ensures Reachable(u) && u.threads == s.threads[t := Stopping(s.calls[chat])]
    ensures u.holders == s.holders && u.createMu == s.createMu && u.calls == s.calls - {chat}
    ensures u.fates == s.fates[s.calls[chat] := Doomed(t)]
  {
    u := Go(v, Unregister(t));
    assert u.threads == s.threads[t := Stopping(s.calls[chat])];
  }

  /** Stop of an open client. */
  lemma StopSection(s: State, t: nat, chat: Chat) returns (u: State)
    requires Reachable(s) && t !in s.threads
    ensures Reachable(u) && TakenAndStopped(s, chat, u)
  {
    ReachableHolders(s);
    if chat in s.calls {
      u := FindsCall(s, t, chat);
      u := UnregistersCall(s, u, t, chat);
      u := StopsTaken(s, u, t, chat);
    } else {
      u := FindsNoCall(s, t, chat);
      assert u.calls == s.calls - {chat};
    }
  }

  /** reap. */
  lemma ReapSection(s: State, t: nat, chat: Chat) returns (u: State)
    requires Reachable(s) && t !in s.threads
    ensures Reachable(u) && TakenAndStopped(s, chat, u)
  {
    ReachableHolders(s);
    u := Go(s, Start(t, Reaping(chat)));
    u := Go(u, Reap(t));
    if chat in s.calls {
      assert u.threads == s.threads[t := Stopping(s.calls[chat])];
      u := StopsTaken(s, u, t, chat);
    } else {
      assert u.threads == s.threads && u.calls == s.calls - {chat};
    }
  }
}
