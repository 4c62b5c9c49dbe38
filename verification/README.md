# gotgcall: the concurrent core, modelled and verified

gotgcall plays audio and video into many Telegram calls at once. Media comes out of ffmpeg processes and goes
into a WebRTC stack; what the library itself adds is a set of hand-written concurrent protocols and a few
small exact algorithms. This project models those and proves what they guarantee, over every input, every
interleaving and every run, and, where the code does less than its comments say, exactly when.

Code that works by changing things in place is a class or a method with a loop, proved against functions on
values. What several operations do together is a transition system over those same functions: a `State`, a
`Step`, what is `Enabled`, what it `Apply`-es, and theorems about every run from `INITIAL`.

| file | part of the system |
|---|---|
| `GroupCallFields`, `GroupCallObject` | the mutex-protected fields of a group call, its critical sections as functions, and the object whose methods run them |
| `GroupCallProtocol` | the group call as a transition system: any number of API calls in flight, streamers ending on their own goroutines, the dispatcher's queue and goroutine |
| `GroupCallInvariant`, `GroupCallSteps`, `GroupCallTheorems`, `GroupCallHandles` | its invariant, that every step keeps it, and what follows for all runs |
| `GroupCallHistory`, `GroupCallEnds` | what becomes of every streamer's end, who has set `switching`, when two streamers of a kind run, and how far OnUpgrade can be trusted |
| `GroupCallGaps` | concrete runs that show where it falls short |
| `GroupCallSections` | each critical section, run from lock to release without interference of other callers, computes what the object's method computes |
| `StreamerGate`, `StreamerPacing` | a streamer's pause gate and pacing loop |
| `Dispatcher` | the drop-oldest callback queue |
| `Registry`, `RegistrySections` | the client's map of calls and the per-chat create mutex; its operations run step by step do what the object's methods do |
| `RingBuffer`, `LineSplitter`, `ShellTokens`, `ArgvRewrite` | the exact sequential algorithms |
| `SsrcAllocator` | the SSRC counter and the SSRCs a stack sends with and declares |
| `Watchdog` | the timer that closes connections stuck outside Connected |
| `RtmpCall`, `RtmpClock`, `RtmpEnds`, `RtmpRuns` | the RTMP call, its playback clock, which process exits it reports, and single runs that show what it does not |

`dafny verify dfyconfig.toml` checks everything.

## Where the code and its comments differ

The model follows the code. Each of these has a lemma that shows the case and one that says exactly when it
arises.

- The end closure's stale check (instances/group_call.go:442-443) lets a stale end through when the new cycle
  has no streamer of the kind that ended: `StaleEndExactly`, `StaleEndStopsNewCycle`.
- SetSource snapshots the mute flag before a slow open (instances/group_call.go:170-173) and installs the
  snapshot: `MuteAtInstallExactly`, `MuteIsMissed`.
- While `switching` is set, the end of the *new* streamer is swallowed as well
  (instances/group_call.go:231-232, 426-428): `InstalledEndIsPendingExactly`, `SwallowedExactly`,
  `InstantEndIsSwallowed`. One call clears the flag for all: `SwitchingIsClearExactly`,
  `SwitchingIsClearedEarly`.
- The sibling is stopped outside the lock (instances/group_call.go:467-476), so two streamers of a kind can run:
  `TwoRunExactly`, `TwoVideoStreamersRun`.
- The comments at instances/group_call.go:259-262 and 534-537 say that a video leg's EOF still fires OnUpgrade. The
  end closure never does: `EndIsNotAnnounced`, `VideoStoppedExactly`, `VideoEndIsNotAnnounced`.
- Resume after a natural end loses the open source handle (instances/group_call.go:337): `HandleLostExactly`,
  `HandleIsLost`.
- `Client.Stop` deletes by key (gotgcall.go:620-627): `OrphanedExactly`, `StopRemovesNewerCall`.
- Tokenizer escapes also apply outside quotes, although the comment at media/shell_source.go:474-478 says they do
  not: `DocumentedExactly`, `EscapeOutsideIsTaken`.
- README.md:727 says that drift does not accumulate. The pacing loop forgives lateness
  (media/streamer.go:157-159) and never makes up for it: `DriftAccumulates`, `NoDriftExactly`,
  `LatenessStays`.
- RTMP Pause and SetSource kill ffmpeg with its exit hook set (instances/rtmp_call.go:71, 138), so a pause is
  reported as a stream end; and the hook is set only after the reaper has been started (io/shell_reader.go:105,
  instances/rtmp_call.go:98), so an exit in between is never reported: `ExitReportsExactly`,
  `PauseIsReportedAsEnd`, `ExitBeforeHookIsLost`. Pause reads a stale start time when ffmpeg is not running:
  `PauseIsContinuousExactly`, `PauseReadsStaleStart`. A SetSource that looked at `closed` too early starts ffmpeg
  after Stop, and nothing else does: `NothingStartsAfterStop`, `LateSetSourceRuns`.
- Under concurrent NewStack calls the declared retransmission SSRC can be another stack's audio SSRC
  (wrtc/native/factory.go:115-122): `ClashesExactly`, `DeclaredCanClash`; at the end of the circle it is the
  reserved 0: `OneStack`.
- `checkingNs` is called monotonic (wrtc/keepalive.go:132-134), but UnixNano is wall-clock time:
  `WallClockExactly`, `ClockStepMisleads`. The other theorems are about the readings.

## Model

| member | source | states |
|---|---|---|
| GroupCallTheorems.EndReports | instances/group_call.go:420-488 | In every run the OnStreamEnd callbacks made and still to be made by the running end closure contain Video of a cycle if and only if the cycle is reported and had video, and Audio if and only if it is reported and had audio; each cycle is reported at most once, in increasing order, video before audio |
| GroupCallTheorems.EndsAreOrdered | instances/group_call.go:449-487 | Read off the callbacks alone: no event twice, cycles never go back, video before audio, only tracks the cycle had |
| GroupCallTheorems.NoStreamerIsLost | instances/group_call.go:220-258 | Every started streamer that has not ended is installed in audioStr or videoStr, or is the one sibling the end closure on the dispatcher goroutine is about to stop |
| GroupCallTheorems.StopOnlyWaitsForStarted | instances/group_call.go:394-407 | Whoever calls Streamer.Stop calls it on a streamer that was started, so it never waits for ever |
| GroupCallTheorems.NothingStartsAfterStop | instances/group_call.go:629-648 | Once Stop has released the lock, no SetSource, SeekBy, Resume or Pause in flight ever starts another streamer |
| GroupCallTheorems.InstalledTogether | instances/group_call.go:220-258 | Whenever the lock is free the fields hold all the streamers of the newest cycle, or none |
| GroupCallTheorems.GatesFollowPause | instances/group_call.go:245-257 | Whenever the lock is free every installed streamer's pause gate equals the pause flag, in all interleavings |
| GroupCallTheorems.MuteFollowsCall | instances/group_call.go:593-627 | The installed audio streamer is muted as the call is, in every run where no mute change fell between a snapshot and its install |
| GroupCallTheorems.VideoIsNeverMuted | instances/group_call.go:593-627 | Muting reaches the audio only: in no run is an installed video streamer muted |
| GroupCallTheorems.MuteAtInstallExactly | instances/group_call.go:167-173 | An install leaves the mute flag right if and only if it changed an even number of times since the snapshot |
| GroupCallTheorems.StaleEndExactly | instances/group_call.go:432-465 | A queued end of an earlier cycle takes a later cycle down if and only if that cycle is still going and has only the other kind of streamer |
| GroupCallTheorems.StaleEndHarmless | instances/group_call.go:432-465 | If all cycles had the same tracks, an end of an earlier cycle never touches the streamers of a later one |
| GroupCallTheorems.UpgradesMirrorTheCall | instances/group_call.go:499-527 | Until Stop, whenever the lock is free, the state last submitted to OnUpgrade (all false before the first) has Muted if and only if the mute flag is set, and Paused and PresentationPaused if and only if the mute or the pause flag is set |
| GroupCallTheorems.UpgradesAreChanges | instances/group_call.go:518-527 | Every submission differs from the state its own critical section started from |
| GroupCallTheorems.Reached | instances/group_call.go:155-708 | Every state any run reaches satisfies the whole invariant (calls in flight, lock, slots, streamers, report order, state mirror) |
| GroupCallSteps.StepKeepsInv | instances/group_call.go:155-708 | Each single step of any goroutine keeps that invariant |
| GroupCallEnds.EndsAreAccountedFor | instances/group_call.go:420-446 | The end of every streamer, once it has come, is in exactly one place: on its way, swallowed by a flag or the queue, or arrived at its critical section; before that in none |
| GroupCallEnds.InstalledEndIsPendingExactly | instances/group_call.go:426-446 | While its streamer is installed, an end that has come is queued or on the dispatcher if and only if it read neither `switching` nor `closed`, was not dropped and was not turned away |
| GroupCallEnds.InstalledEndIsReported | instances/group_call.go:432-487 | An installed streamer's end that reaches its section is always reported, as the newest cycle's: the callbacks left to make are Video if that cycle had video, then Audio if it had audio, and there is at least one |
| GroupCallEnds.SwallowedExactly | instances/group_call.go:426-446 | When the call has come to rest, an end has been handled if and only if no flag or drop lost it; a finished streamer still installed means it was lost |
| GroupCallEnds.SwitchingIsOwned | instances/group_call.go:231-232 | Whenever `switching` is set, some SetSource or SeekBy has set it and not yet cleared it |
| GroupCallEnds.SwitchingIsClearExactly | instances/group_call.go:231-232 | Inside a section that has set it, `switching` is clear if and only if another call has cleared it since |
| GroupCallEnds.TwoRunExactly | instances/group_call.go:467-476 | Two streamers of a kind run if and only if one is installed and the other is the sibling still to be stopped |
| GroupCallEnds.VideoStoppedExactly | instances/group_call.go:499-527 | The VideoStopped last submitted is right if and only if a video streamer has come or gone an even number of times since (odd, before the first submission) |
| GroupCallEnds.EndIsNotAnnounced | instances/group_call.go:459-465 | The end closure submits nothing, and makes the last submission wrong if and only if it takes a video streamer away |
| GroupCallHandles.HandleLostExactly | instances/group_call.go:321-345 | A handle the call owns is left open with no owner by one step only: Resume reopening over a handle whose streamers ended naturally |
| GroupCallHandles.CarriedHandleIsKept | instances/group_call.go:176-233 | The handle a SetSource in flight carries is installed or closed, never lost |
| GroupCallGaps.InstantEndIsSwallowed | instances/group_call.go:426-428 | A reachable settled state with a finished streamer installed and no callback made |
| GroupCallGaps.StaleEndStopsNewCycle | instances/group_call.go:442-443 | A run in which the late end of an audio cycle takes a running video cycle down |
| GroupCallGaps.TwoVideoStreamersRun | instances/group_call.go:467-476 | A reachable state in which video streamers of two cycles run |
| GroupCallGaps.MuteIsMissed | instances/group_call.go:170-173 | A reachable state in which the call is muted and its installed audio streamer is not |
| GroupCallGaps.HandleIsLost | instances/group_call.go:337 | A run after which two handles are open and the call knows one |
| GroupCallGaps.SwitchingIsClearedEarly | instances/group_call.go:231-232 | A run in which one SetSource is tearing down with `switching` cleared by another |
| GroupCallGaps.VideoEndIsNotAnnounced | instances/group_call.go:534-537 | A settled run in which the video's end is reported and OnUpgrade's last word is that there is video |
| GroupCallSections.SetSourceSection | instances/group_call.go:220-264 | SetSource's section, run step by step without other callers, does to the fields what the object's method does, waiting for the old streamers wherever they are in their lives |
| GroupCallSections.LateSetSourceSection | instances/group_call.go:222-229 | On a call closed in the meantime it changes nothing and closes what it had opened |
| GroupCallSections.PauseSection | instances/group_call.go:538-555 | The same for Pause, with what it submits |
| GroupCallSections.MuteSection | instances/group_call.go:593-627 | The same for Mute and Unmute |
| GroupCallSections.UngateSection | instances/group_call.go:567-587 | The same for a Resume that only opens the gates, or has nothing to do |
| GroupCallSections.ResumeSection | instances/group_call.go:561-591 | The same for a Resume that reopens its source, whether it opens or not |
| GroupCallSections.NoSeekSection | instances/group_call.go:662-676 | A SeekBy by zero or without a seekable source changes nothing |
| GroupCallSections.UnderflowSection | instances/group_call.go:662-708 | A SeekBy to before the start drops the streamers, joined, and submits nothing |
| GroupCallSections.SeekSection | instances/group_call.go:662-708 | Any other SeekBy restarts, whether the source opens or not, and submits nothing |
| GroupCallSections.StopSection | instances/group_call.go:629-648 | The same for Stop |
| GroupCallSections.ConnectionLostSection | instances/group_call.go:121-129 | The same for the cleanup after the connection is lost |
| GroupCallSections.EndSection | instances/group_call.go:432-465 | The same for the end closure, with the sibling it names |
| GroupCallObject.GroupCall.SetSourceLocked | instances/group_call.go:220-264 | Switches the source: old streamers joined, new ones installed and started with gate equal to the pause flag, cycle armed, offset 0; nothing at all on a closed call |
| GroupCallObject.GroupCall.StopStreamersLocked | instances/group_call.go:394-407 | Both streamers joined, all three fields cleared, nothing else changed |
| GroupCallObject.GroupCall.StartLocked | instances/group_call.go:321-391 | Which streamers exist and how they are gated, muted and armed after a reopen that may fail or yield either track |
| GroupCallObject.GroupCall.Pause | instances/group_call.go:538-555 | An open call not yet paused sets the flag and both gates and submits Paused and PresentationPaused true with Muted as it was, unless it is muted already; otherwise nothing changes |
| GroupCallObject.GroupCall.Resume | instances/group_call.go:561-591 | Clears the flag and opens the gates, reopens the source if nothing is installed, and, if the call is not muted or video has come, submits Muted, Paused and PresentationPaused each equal to the mute flag |
| GroupCallObject.GroupCall.SetMute | instances/group_call.go:593-627 | Sets the call's and the audio streamer's mute flag and submits Muted equal to it, with Paused and PresentationPaused true exactly if the call is muted or paused |
| GroupCallObject.GroupCall.SeekBy | instances/group_call.go:662-722 | A seek moves the elapsed time by exactly its delta, even if the reopen fails; below zero it stops the streamers; otherwise nothing changes |
| GroupCallObject.GroupCall.ElapsedMs | instances/group_call.go:710-722 | The offset of the last start plus what the audio streamer, else the video streamer, has sent; the offset alone without one |
| GroupCallObject.GroupCall.State | instances/group_call.go:724-728 | The four flags in terms of the mute flag, the pause flag and whether a video streamer is installed |
| GroupCallObject.GroupCall.Stop | instances/group_call.go:629-648 | The first Stop joins both streamers and clears everything without submitting a state; later ones do nothing |
| GroupCallObject.GroupCall.HandleStreamerEnd | instances/group_call.go:432-465 | Decides between stale, already reported and reported; a report clears both fields and names the sibling to stop |
| GroupCallObject.GroupCall.ConnectionLost | instances/group_call.go:121-129 | Drops the streamers and submits the state if it changed |
| StreamerGate.NoLostWakeUp | media/streamer.go:77-115 | With any number of togglers: if the loop is blocked and the flag clear, a token is queued or a caller is between its compare-and-swap and its send |
| StreamerGate.GateReturns | media/streamer.go:98-115 | Once no more pauses arrive, a decreasing measure bounds the steps gate() can take and one is always possible until it returns; unless the streamer is cancelled it has then returned true |
| StreamerGate.GateSaysExactly | media/streamer.go:98-115 | In every run gate() comes back with true if and only if its test finds neither the flag set nor the context cancelled, and with false if and only if it finds the flag clear and the context cancelled or the cancel wakes it |
| StreamerGate.StaleTokensWakeNobody | media/streamer.go:98-115 | After the drain each wake-up by a token takes a send made since, so tokens of earlier toggles wake nobody |
| StreamerGate.PausedGateHolds | media/streamer.go:98-115 | While the flag stays set gate() lets nothing through, whatever stale tokens are about |
| StreamerGate.Gate.Advance | media/streamer.go:98-115 | Each action of the loop goroutine inside gate(), stated on the flag, the token and the place of the loop, is a step of the transition system |
| StreamerGate.Gate.SetPaused | media/streamer.go:77-92 | Sets the flag, and leaves a token exactly when it cleared a set flag or one was there |
| StreamerPacing.Run | media/streamer.go:141-196 | For every sequence of clock readings and outcomes the loop computes the specified tally; and on a monotone clock it hands over the samples before the first turn that ends it, writes those not muted, counts their milliseconds, asks at each for exactly the time left from its wake-up plus its duration, and calls the end once |
| StreamerPacing.TallyIsOfPlay | media/streamer.go:141-196 | The counters are those of the samples handed over, and the end callback comes once, when the loop ends |
| StreamerPacing.NeverRunsAhead | media/streamer.go:157-195 | For every monotone clock the first k samples last no longer than the time from the first to the k-th gate wake-up |
| StreamerPacing.DriftIsLateness | media/streamer.go:157-195 | With timers that fire on time the drift at a sample is exactly the sum of what the earlier ones were late, hence none if each was handed over within its duration |
| StreamerPacing.ResetIsRedundant | media/streamer.go:179-182 | With and without the -100 ms catch-up reset the loop asks for the same waits |
| StreamerPacing.MsSentUndercounts | media/streamer.go:175 | The millisecond counter is below the sum of durations by less than 1 ms per sample |
| StreamerPacing.DriftAccumulates | media/streamer.go:157-159 | Drift behind real time never shrinks |
| StreamerPacing.LatenessStays | media/streamer.go:157-159 | One sample handed over 30 ms late leaves the stream 30 ms behind |
| StreamerPacing.NoDriftExactly | media/streamer.go:157-159 | There is no drift at a sample if and only if each earlier one was followed on time |
| Dispatcher.Accounting | utils/synccallback.go:36-92 | Over every run with any number of producers: bound kept, executed events in enqueue order and at most once, each event in exactly the one state its fate names |
| Dispatcher.ExecutedInEnqueueOrder | utils/synccallback.go:36-47 | Of two executed events the one executed first was enqueued first, and the running one comes after them all |
| Dispatcher.LossesExactly | utils/synccallback.go:54-82 | For every step and event: it is lost, dropped as oldest, dropped as new or executed by that step if and only if a condition on the closed flags, the queue and the step holds; none of these is undone |
| Dispatcher.DroppedNewExactly | utils/synccallback.go:76-80 | A last try drops the new event if and only if the queue is full and open, and then another producer has enqueued since room was made |
| Dispatcher.SecondProducerTakesPlace | utils/synccallback.go:68-81 | A run in which that happens |
| Dispatcher.LoneNewestIsKept | utils/synccallback.go:54-82 | The newest event of a lone producer is never dropped before Close |
| Dispatcher.BusyConsumerKeepsNewest | utils/synccallback.go:50-53 | Undisturbed submissions to a busy consumer leave exactly the newest events, in order |
| Dispatcher.SubmitSteps | utils/synccallback.go:68-81 | The three channel operations of an undisturbed Submit are the drop-oldest insertion |
| Dispatcher.Queue.Submit | utils/synccallback.go:54-82 | The object's Submit is that insertion, and nothing once closed |
| Dispatcher.Queue.Close | utils/synccallback.go:86-92 | Close runs everything still queued, in order, before it returns |
| Registry.OneCreatorPerChat | gotgcall.go:374-379 | In every run at most one goroutine is inside a chat's create section |
| Registry.StoreOverwritesNothing | gotgcall.go:460 | Store never overwrites a registered call |
| Registry.DeleteRemovesOnlyTheDead | gotgcall.go:509-521 | callIsLive's Delete removes no call but the one it judged dead |
| Registry.NoOtherCallIsLost | gotgcall.go:447-539 | Every call ever made is about to be stored, registered, about to be stopped, stopped, or was taken out by a Stop of another call |
| Registry.OrphanedExactly | gotgcall.go:620-627 | A step leaves a call unregistered, unstopped and in no goroutine's hands if and only if no other goroutine has it and the step is Stop's delete by key of a call it has not looked up, or callIsLive finding alive a call so removed |
| Registry.OrphansStayForGood | gotgcall.go:509-539 | Such a call is never registered or stopped again, whatever happens |
| Registry.StopRemovesNewerCall | gotgcall.go:620-627 | A run that ends with an empty registry and such a call |
| Registry.Client.CreateCall | gotgcall.go:447-467 | The registry, the call count and the set of stopped calls by equation on every path: a closed client changes nothing; a dead predecessor is taken out and stopped; a call is registered if it was built and yields parameters, and stopped if it was built and does not |
| Registry.Client.CallIsLive | gotgcall.go:509-521 | A dead call is removed and stopped, a live one left alone |
| Registry.Client.Reap | gotgcall.go:533-539 | Removes and stops the chat's call, if any |
| Registry.Client.Stop | gotgcall.go:620-627 | Removes and stops the chat's call, or reports that there is none or that the client is closed and does nothing |
| RegistrySections.CreateSection | gotgcall.go:447-521 | The create section, run step by step in the transition system from any reachable state, registers and stops exactly the calls that CreateCall does and lets its mutex go |
| RegistrySections.StopSection | gotgcall.go:620-627 | The same for Stop: the chat's call is out and stopped, nothing else has changed |
| RegistrySections.ReapSection | gotgcall.go:533-539 | The same for reap |
| RingBuffer.WriteAll | utils/ringbuf.go:14-59 | After any writes of any sizes the snapshot is exactly the last min(capacity, total) elements of their concatenation |
| RingBuffer.RingBuffer.Write | utils/ringbuf.go:21-44 | Appends to the abstract log and keeps its tail, through every wrap and overflow branch |
| RingBuffer.RingBuffer.Snapshot | utils/ringbuf.go:47-59 | Returns the abstract log's tail, oldest first |
| LineSplitter.AnyChunks | io/shell_reader.go:118-147 | For any stream in any chunks: pending is the last min(8192, n) bytes of the unterminated tail, and each line cut out is the true line or at least its last 8192 bytes |
| LineSplitter.CutRejoins | io/shell_reader.go:118-147 | The true lines with their newlines, followed by the unterminated rest, are the stream, and contain no newline |
| LineSplitter.LoggedLineIs | io/shell_reader.go:118-147 | An empty line or a lone CR is not logged; of any other line exactly one CR at its end goes |
| LineSplitter.ShortLinesUnaffected | io/shell_reader.go:118-147 | If no line exceeds 8192 bytes the logged lines do not depend on the chunking |
| LineSplitter.WriteAll | io/shell_reader.go:118-147 | The real writer over any chunks logs and keeps what the theorems are about |
| LineSplitter.Writer.Write | io/shell_reader.go:118-147 | Logs every complete line, CR trimmed and empty ones skipped, and keeps the capped rest |
| ShellTokens.TokenizeUndoesQuoting | media/shell_source.go:485-517 | Quoting each word with escapes, joining with spaces and tokenizing gives the words back without the empty ones |
| ShellTokens.PrintedTokensReadBack | media/shell_source.go:485-517 | Tokenize, print, tokenize equals tokenize, for every input |
| ShellTokens.DocumentedExactly | media/shell_source.go:498-505 | The tokenizer does what its comment says if and only if the input has no escape outside quotes |
| ShellTokens.PlainWordsSplit | media/shell_source.go:485-517 | Blank, tab and newline each separate words; between any words without special bytes the tokens are those words without the empty ones |
| ShellTokens.ReadsOneByte | media/shell_source.go:485-517 | What each byte does in and out of quotes: a quote toggles, a backslash takes a quote or backslash and otherwise stays, white space stays inside quotes |
| ShellTokens.EscapeOutsideIsTaken | media/shell_source.go:498-505 | Two backslashes outside quotes, read as one and documented as two |
| ShellTokens.TokenizeShell | media/shell_source.go:485-517 | The loop with its look-ahead and flush computes the tokens |
| ArgvRewrite.EnsuredIsIdempotent | media/shell_source.go:49-143 | Ensuring ffmpeg's flags twice is ensuring them once, for every argument list and track |
| ArgvRewrite.OnlyTwoBlocks | media/shell_source.go:117-142 | Ignoring pipe:1, only one block before the first -i and one at the end are inserted; a changed list ends in pipe:1 |
| ArgvRewrite.EnsuredExactly | media/shell_source.go:109-142 | The resulting list in all cases: unchanged if and only if nothing is wanted and an output pipe is named; else the blocks in their places, each pipe:1 gone and one last |
| ArgvRewrite.FlagsAreAdded | media/shell_source.go:66-116 | What a block adds, in the order of the track's table: each flag with its value right behind it, unless it or its synonym is among the arguments |
| ArgvRewrite.EnsureFFmpegFlags | media/shell_source.go:49-143 | The whole function, with its scan, search and insertion, computes the specified list |
| ArgvRewrite.FilterPipes | media/shell_source.go:128-139 | The filter over the front of its own slice keeps exactly the tokens that are not pipe:1, in order |
| ArgvRewrite.LastSeekWins | media/shell_source.go:444-472 | A second seek injection replaces the first, including malformed and trailing -ss |
| ArgvRewrite.KeptExactly | media/shell_source.go:444-472 | In front of the first kept -i every token is kept but each -ss and the token after it, a -ss at the very end excepted |
| ArgvRewrite.InputOnwardsUnchanged | media/shell_source.go:444-472 | From the first kept -i on the arguments are a suffix of the input, unchanged |
| ArgvRewrite.InjectSeek | media/shell_source.go:444-472 | The loop with its skip flag and input index computes the specified list |
| SsrcAllocator.SameExactly | wrtc/native/factory.go:154-162 | Two allocations agree if and only if they are whole circles apart, so any 2^32-1 in a row are distinct; none is 0 |
| SsrcAllocator.ValuesAdvance | wrtc/native/factory.go:154-162 | Each advance adds one to the word before it modulo 2^32 |
| SsrcAllocator.SerialStacksAreDisjoint | wrtc/native/factory.go:115-122 | Within one circle, stacks made one after the other never share an audio, video or declared SSRC |
| SsrcAllocator.OneStack | wrtc/native/signaling.go:96-100 | The three SSRCs of one stack differ; the declared one is 0 if and only if the video one is the last word |
| SsrcAllocator.SentAreDistinct | wrtc/native/factory.go:115-122 | Under concurrent NewStack calls, audio and video SSRCs all differ |
| SsrcAllocator.ClashesExactly | wrtc/native/factory.go:115-122 | Under concurrency a declared SSRC is another stack's if and only if that stack made the very next advance for an SSRC it sends with |
| SsrcAllocator.DeclaredCanClash | wrtc/native/signaling.go:96-100 | An interleaving in which that happens |
| SsrcAllocator.Factory.AllocateSSRC | wrtc/native/factory.go:154-162 | The retry loop yields the next nonzero word |
| SsrcAllocator.Factory.NewStack | wrtc/native/factory.go:102-137 | One allocation without video, three with; none on an error |
| Watchdog.SurvivesExactly | wrtc/keepalive.go:141-158 | A connection is closed at the first tick that ends a spell of more than 15 s out of Connected, and never otherwise, for every trace |
| Watchdog.FifteenSecondsAreAllowed | wrtc/keepalive.go:144-156 | The second of two ticks out of Connected closes if and only if it comes more than 15 s after the first |
| Watchdog.ExpiresExactly | wrtc/keepalive.go:144-156 | A tick closes if and only if it ends such a spell |
| Watchdog.TimerIsTheSpell | wrtc/keepalive.go:133-158 | The timer holds the time the present spell began, and 0 without one |
| Watchdog.ClosedInTime | wrtc/keepalive.go:103-156 | With ticks at most P apart the closing tick comes within 15 s + P of the spell's first |
| Watchdog.WallClockExactly | wrtc/keepalive.go:144-156 | A tick closes if and only if the time really passed since the spell began and the steps of the wall clock since come to more than 15 s |
| Watchdog.ClockStepMisleads | wrtc/keepalive.go:145 | A clock set forward closes a connection after one second, one set back keeps one that has been stuck for 16 s |
| Watchdog.Entry.Tick | wrtc/keepalive.go:141-168 | The timer, whether to close, and whether to pad |
| Watchdog.Monitor.Poll | wrtc/keepalive.go:103-131 | One round closes exactly the expired connections, pads every second round, and moves every other timer on |
| Watchdog.Monitor.Run | wrtc/keepalive.go:103-131 | Over any rounds, for all connections at once: one is still registered if and only if none of its ticks is overdue |
| RtmpClock.ElapsedIsConserved | instances/rtmp_call.go:60-242 | Over any run of pauses, resumes and seeks since SetSource, the reading is never above unpaused wall time plus deltas and less than (k+1) ms below it, with k the pauses and seeks of a running call |
| RtmpClock.ElapsedStandsStillExactly | instances/rtmp_call.go:232-242 | Between events the reading stands still if paused and moves with the clock otherwise |
| RtmpClock.PauseIsContinuousExactly | instances/rtmp_call.go:134-138 | Pause keeps the reading if and only if ffmpeg runs, or the stale start reads zero |
| RtmpClock.PauseReadsStaleStart | instances/rtmp_call.go:198-203 | After a seek below zero the reading is 0, and a pause makes it an hour |
| RtmpClock.ResumeIsContinuousExactly | instances/rtmp_call.go:143-157 | Resume keeps the reading if and only if ffmpeg starts or there was nothing to keep |
| RtmpClock.SeekMovesExactly | instances/rtmp_call.go:190-213 | SeekBy moves the reading by its delta, stopping at zero, if and only if ffmpeg starts or need not |
| RtmpCall.RTMPCall.SetSource | instances/rtmp_call.go:60-81 | The new fields on every path, and that the old process is killed with its exit hook still set |
| RtmpCall.RTMPCall.Pause | instances/rtmp_call.go:125-141 | The position is frozen, the process killed with its hook set, and the state mirror kept |
| RtmpCall.RTMPCall.Resume | instances/rtmp_call.go:143-157 | ffmpeg starts at the frozen position; the flag clears even if it does not; the state mirror is kept |
| RtmpCall.RTMPCall.SetMute | instances/rtmp_call.go:159-173 | Only the flag changes, also on a closed call; the state mirror is kept |
| RtmpCall.RTMPCall.SeekBy | instances/rtmp_call.go:181-214 | The new fields on every path, and that only a seek that does not underflow takes the hook off |
| RtmpCall.RTMPCall.Stop | instances/rtmp_call.go:216-230 | The first Stop kills the process and clears the fields without submitting a state |
| RtmpCall.RTMPCall.ElapsedMs | instances/rtmp_call.go:232-242 | The frozen position if paused, the time since the start in milliseconds if a process runs, else 0 |
| RtmpCall.RTMPCall.State | instances/rtmp_call.go:244-263 | The four flags in terms of the mute and the pause flag; the video is never stopped |
| RtmpEnds.OneProcessAtMost | instances/rtmp_call.go:83-123 | In every interleaving at most one process is alive, the one started last, and the call points to it |
| RtmpEnds.ExitReportsExactly | instances/rtmp_call.go:98-107 | In every interleaving an exit is reported if and only if the call is open, the process has been hooked, and it is not a seek without underflow that is killing it |
| RtmpEnds.ProcessesAreAccountedFor | instances/rtmp_call.go:83-123 | A process is dead if and only if the run has its exit; its end is submitted if and only if that exit was heard, and once |
| RtmpEnds.PauseReportsEndFirst | instances/rtmp_call.go:125-141 | When Pause submits the new state no process is alive: the end has been submitted before the upgrade |
| RtmpEnds.UpgradesMirrorTheCall | instances/rtmp_call.go:255-279 | In every interleaving without Stop, whenever the lock is free, the last submitted state has Muted as the mute flag, both paused flags as mute or pause, and video never stopped |
| RtmpEnds.UpgradesAreChanges | instances/rtmp_call.go:216-230 | A step submits a state if and only if a section other than Stop's lets go of the lock with a state that differs from the one it found, and then submits that |
| RtmpRuns.PauseIsReportedAsEnd | instances/rtmp_call.go:134-138 | A run in which a pause is reported as the end of the stream |
| RtmpRuns.ExitBeforeHookIsLost | instances/rtmp_call.go:90-98 | A run in which a process exits between its start and its hooking: an open call at rest that has reported nothing |
| RtmpEnds.RunningExactly | instances/rtmp_call.go:60-230 | Whether a process runs after each section, for every operation |
| RtmpRuns.NothingStartsAfterStop | instances/rtmp_call.go:216-230 | After Stop's section no process starts unless a SetSource section still comes |
| RtmpRuns.StopEnds | instances/rtmp_call.go:216-230 | Every call can be stopped, leaving no process alive |
| RtmpRuns.LateSetSourceRuns | instances/rtmp_call.go:60-81 | After that, a SetSource that looked at `closed` before Stop leaves a hooked process running on a closed call |

## Left out

- The connection: ICE, DTLS, SRTP, RTP packetising, certificates and key export. It is an environment step that fails or not; `netState` and the connect gate in SetSource are a nondeterministic failure.
- ffmpeg: spawning, pipes, reaping and reading. Opening a source is a step that fails or yields audio, video or both; starting ffmpeg is an input that succeeds or fails.
- OGG and IVF parsing: a frame reader is an arbitrary sequence of samples ending in an error or EOF; the stall timer that closes a silent source is such an error.
- JSON and SDP, logging, option setters, the example bot, interface and IP filters, certificate-pool backoff.
- Panics: callbacks are assumed to return normally. A send on the closed dispatcher channel, which the code recovers from, is modelled as losing the event; Submit of nil is not modelled.
- `videoOff` of a group call is never set by any method, so it is taken to be false; the encode options carried with a source are not modelled.
- The group call's `resumeMs` and the elapsed time are in the object, not in the transition system: SeekBy's underflow is a nondeterministic choice there.
- The exact bounded queue is in `Dispatcher`; the group call's transition system lets any queued closure be dropped at any time, which includes that.
- `Client.Close`, `Connect` and `SetStreamSources` beyond their reap, and the forwarding of every other client method to the call; StartRTMP is CreateCall with a call that is always built and always yields parameters.
- The watchdog's Poll is one step with respect to Register and Unregister; a connection unregistered between the snapshot and its tick could be closed a second time, which closing tolerates.
- 64-bit limits: positions and durations are unbounded integers, so wrap-around of durations beyond 292 years is not modelled; the saturation of time.Since on a call that never started is.
- `elapsedMs` of the RTMP call is written but never read by the code, and is not modelled.
- Bytes are characters; the formatting of a seek offset as seconds is an input, and the fixed flags of ffmpeg are tables with the code's names and values.
- ArgvRewrite: the check of output codecs and the splitting of a command into program and arguments.
- RtmpEnds: a section reads the clock once, when it takes the lock, and its spawn takes no time; a hook's look at `closed` and its submission are one step.
- RtmpClock.ElapsedIsConserved: covers runs in which every spawn succeeds at once and no seek underflows; what one failed spawn or underflow does is stated by the lemmas about single calls.
- RtmpClock.ResumeIsContinuousExactly: the time ffmpeg takes to start is not part of the model.
