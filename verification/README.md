# Verification of the bridge protocols

This project models the hand-built protocols and state machines of the netplay bridge in Dafny 4.11 and proves
what they promise. `dafny verify dfyconfig.toml` checks everything.

## What is modelled

* **Console capture** (`CaptureRing`, `CaptureSlots`, `CapturePause`, `CaptureQueue`, `CaptureLoss`, `CaptureRuns`,
  `CaptureFlush`, `CaptureStop`, `CaptureCalls`). Any number of threads write console output into a ring of 256
  sequence-numbered slots, one worker drains it into the line assembler, and control threads pause the ingress to
  place flush and close entries between records. Each atomic access, each critical section and each half of a payload
  copy is one step. `CaptureRing` is the machine; the next four modules hold its invariants. `CaptureRuns` states what
  holds of every interleaving: slots are exclusive and consumed in claim order, a pause leaves nothing unpublished,
  each flush runs at exactly its boundary, pending text never straddles a lost write of its thread, a draining stop
  loses nothing. `CaptureFlush` says what is pending: a flush leaves nothing from before its boundary, a record stays
  pending until the next flush, loss boundary or clearing, and whoever waits for a flush goes on only after it.
  `CaptureStop` shows that a waiting stop can always return, by nothing more than finishing what is under way.
* **Line assembly** (`LineAssembly`, `LineLaws`). Trimming, the text test, and the incremental assembler of one
  source, as methods over a pending line. The assembler keeps pace with its bytes, chunk by chunk, if and only if no
  chunk ends on a line that is reported early (`RunIsItsBytes`); under that condition the lines do not depend on how
  the bytes were cut. Asked of the final result alone, the condition is sufficient and not necessary: a cut between an
  urgent message and its line break is harmless (`CutBeforeBreakIsHarmless`), a cut before further text is not
  (`CutAfterUrgentMatters`).
* **Control wakes** (`WakeAccounting`, `WakeCalls`). The request and served counters shared by writers, readers and
  flushers, and the prompt and timeout serials shared by publishers and the timeout gate. Served stays within
  requested, each prompt is released at most once, and a release of a live helper has its evidence, in every
  interleaving. One result is negative: a reader stores the served counter with a plain exchange
  (`src/netplay/bridge/iat_stubs.cpp:2581-2583`), so a reader that overlaps another can lower it
  (`OverlappingReadersLower`). It never goes down in a run in which no thread stores it while another is between its
  load and its delivery (`UndisturbedNeverLowers`); the comment at line 2403 of that file claims part of this
  discipline, that the old reader is joined before the flush of a rearm. A pending timeout is never stuck: from every
  reachable state two wakes that are read release it (`TwoWakesRelease`).
* **Export suspension** (`ExportBarrier`, `ExportCalls`). Queueing threads, the export worker and the suspender. The
  order in which the suspender reads the two words is a parameter: an order is a barrier if and only if it contains
  in-flight, pending, in-flight in this order. The code's four reads qualify; so do its first three; no single pair
  does. After a resume updates run again, inline or through the worker (`ResumedUpdateRuns`, `ResumedRequestRuns`).
* **Guard reclamation** (`GuardReclaim`, `GuardCalls`). Readers interleave freely with one control thread that
  installs, retires, cleans up and drains child guards. What a reader holds is mapped; it comes to hold it only while
  delivery is on, if it asked for delivery; and an acquire that runs alone succeeds exactly when there is a guard.
* **Frontend return and background hosting** (`FrontendReturn`, `ReturnLaws`, `ReturnWord`, `AsyncHost`,
  `AsyncEpisodes`, `HostLaws`, `ReturnCycle`, `CycleLaws`). The thirteen-state return machine and the hosting machine
  as classes proved against step functions, and the cycle in which their ticks call each other. Screens, clock
  readings, keys, session status and the outcome of calls into the game are inputs, a fresh set for every nested call.
  A return is held until its continuation is consumed if and only if it targets the netplay menu, may be forced, and
  asks for the menu after the title; the target and the fallback alone are not enough (`MenuTargetAloneIsNotHeld`). A
  native exit whose battle is already cleaning up suppresses the timeout for as long as the battle stays
  (`SuppressedWaitsForTheGame`). The ownership word is shared with the threads that start sessions, which reset its
  consumed latch; `ReturnWord` takes each of its atomic accesses as a step and shows that every interleaving is a run
  of the sequential machine, with resets between the operations or inside a consume. A reset inside a consume leaves
  the word inactive instead of consumed (`ResetInsideConsume`).
* **HTTP response completeness** (`HttpFraming`, `HttpNumbers`, `HttpMessages`, `HttpFields`, `HttpWordCursor`). The
  recogniser, proved against a printer of Content-Length and chunked messages (sections 6.3 and 7.1 of RFC 9112). The
  numbers are printed from digit tables, with leading zeros and either case of each digit, and the fields are lines in
  any mixture of cases, both said without the recogniser's own functions. On naturals every turn of the chunk loop
  moves the cursor forward. With the 32-bit cursor of the x86 build termination is false: after any chunked head the
  size FFFFFFF4 brings the cursor back to its own line and the loop never answers (`StallNeverAnswers`). The 32-bit
  loop ends if and only if it never comes back to a cursor (`EndsExactlyWithoutRepeat`). For that it is enough that no
  turn it takes goes back, which is a condition on the size at the cursor (`BackwardTargets`); then it answers within
  as many turns as there are bytes, and if no turn wraps into the buffer its answer is the one on naturals. Sizes up
  to 2^31 in a buffer below 2^31 - 4 bytes never wrap.
* **Match lifecycle** (`MatchLifecycle`). The compare-and-swap loops with spurious failures. Every interleaving is a
  sequential run of whole calls, each with the answer of the sequential object; at most one end of a challenge takes
  effect, and the return of a connected match is consumed once.
* **Reset gate, patch log** (`ResetGate`, `GateLaws`, `PatchLog`). The overlay reset gate over any run of calls,
  epochs modulo 2^32; the undo log over a byte memory, overlapping, rejected and failed patches included.

`Basics` holds the optional values and the 32-bit word the other modules share.

Concurrent code is modelled as a state and a total step function, a disabled action leaving the state as it is, and
`Exec` runs any sequence of actions; results are stated for all sequences. Sequential code is modelled as classes
whose methods are proved equal to step functions, about which the run-level results are proved. What an invariant
does not say, that an operation does its work, is said in the modules named `...Calls` and `...Laws`: what a whole call
achieves when nothing else moves, and what a tick, a byte or an answer leads to in every situation.

Fields and variables called history (`log`, `past`, `claims`, `writes`, `given`, `entries`, `flushes`, `quiet`, `asked`,
`accepted`, `consumed`, `done`, `epoch`) record what happened and are read by no step, except that a publisher of
`WakeAccounting` finds in the log the request count its captured write carried.

## Model

| member | source | states |
|---|---|---|
| CaptureRuns.RingIsSafe | src/netplay/bridge/console_capture.cpp:1630-1693 | In every interleaving two writers never share a slot, the worker only reads a published slot that nobody writes, and the records given are the first claims in claim order, each once. |
| CaptureSlots.ProduceKeepsRing | src/netplay/bridge/console_capture.cpp:1630-1693 | Every producer step keeps the ring's invariant: free slots carry their position, used ones are published or owned by the thread that claimed them. |
| CaptureSlots.WorkKeepsRing | src/netplay/bridge/console_capture.cpp:1504-1552 | Every worker step keeps it, the release that reuses the slot for the next lap included. |
| CaptureSlots.ControlKeepsRing | src/netplay/bridge/console_capture.cpp:1695-1746 | No control thread disturbs it. |
| CaptureSlots.ProducerClaims | src/netplay/bridge/console_capture.cpp:1669-1679 | Winning the compare-and-swap on the enqueue position makes the thread the one owner of a free slot. |
| CaptureSlots.OwnerPublishes | src/netplay/bridge/console_capture.cpp:1681-1691 | Storing the sequence publishes the whole record of that claim and nothing else. |
| CaptureSlots.ReleaseKeepsRing | src/netplay/bridge/console_capture.cpp:1380-1392 | Releasing a slot makes it free for exactly one lap later. |
| CapturePause.EmptyIsFrozen | src/netplay/bridge/console_capture.cpp:1345-1354 | With the door closed and the active count at zero no thread is between its accepting check and its publication. |
| CapturePause.FrozenIsPublished | src/netplay/bridge/console_capture.cpp:1345-1354 | Then every position between the two ends is published. |
| CapturePause.ControlKeepsControl | src/netplay/bridge/console_capture.cpp:1695-1746 | While a control thread holds the mutex after its pause the ingress stays frozen and its captured boundary stays the enqueue position. |
| CapturePause.ProduceKeepsControl | src/netplay/bridge/console_capture.cpp:1642-1650 | Threads that arrive during a pause leave without touching the ring. |
| CaptureQueue.FlushRuns | src/netplay/bridge/console_capture.cpp:1559-1569 | A flush runs when exactly the records before its boundary have been given. |
| CaptureQueue.WorkKeepsQueue | src/netplay/bridge/console_capture.cpp:1512-1569 | Entries are taken in order, none before its boundary and no record past the boundary of a waiting entry. |
| CaptureQueue.PushKeepsQueue | src/netplay/bridge/console_capture.cpp:1711-1721 | New entries get consecutive numbers and a boundary no earlier one exceeds. |
| CaptureQueue.EntriesAreNumbered | src/netplay/bridge/console_capture.cpp:1849-1868 | A flush queues a flush, closing the files a flush and then a close, a stop a close; all at one boundary, with consecutive numbers. |
| CaptureRuns.PauseLeavesNothingUnpublished | src/netplay/bridge/console_capture.cpp:1345-1354 | In every interleaving, between pause and resume no thread owns a slot, everything claimed is published, and the captured boundary is the enqueue position. |
| CaptureRuns.FlushesAreExact | src/netplay/bridge/console_capture.cpp:1481-1571 | In every interleaving the flushes carried out are the queued ones up to the last entry done, once each, in order, each with as many records given as its boundary. |
| CaptureFlush.FlushesEmptyPending | src/netplay/bridge/console_capture.cpp:1559-1563 | In every interleaving what is pending is the end of what was given, and every pending record was claimed at or past the boundary of every flush carried out. |
| CaptureFlush.PendingStep | src/netplay/bridge/console_capture.cpp:1434-1445 | A step leaves pending what was pending, unless it logs a flush, applies a loss boundary or is a control thread flushing by itself, and what it gives. |
| CaptureFlush.PendingUntilCleared | src/netplay/bridge/console_capture.cpp:1546-1563 | Over any run without such a step the pending text grows by exactly what is given. |
| CaptureFlush.WaitedFlushHasRun | src/netplay/bridge/console_capture.cpp:1734-1744 | In every interleaving a caller that waits for its flush goes on only after that flush has run, so that nothing given before its boundary is pending. |
| CaptureRuns.LossesSeparate | src/netplay/bridge/console_capture.cpp:1434-1445 | In every interleaving all pending records carry the consumed generation, and no two of one thread have a dropped write of that thread between them. |
| CaptureLoss.ProduceKeepsLoss | src/netplay/bridge/console_capture.cpp:1642-1692 | A drop outdates every earlier write; a stamp knows of every earlier drop of its thread; each accepted write is one record at one position. |
| CaptureLoss.WorkKeepsLoss | src/netplay/bridge/console_capture.cpp:1546-1558 | Applying a record's loss boundary before its text keeps all pending text in one generation. |
| CaptureLoss.NothingStraddlesALoss | src/netplay/bridge/console_capture.cpp:1394-1405 | Records pending together never lie on both sides of a drop of their thread. |
| CaptureRuns.StopLosesNothing | src/netplay/bridge/console_capture.cpp:1791-1835 | When a draining stop has returned, every accepted write has been given once, no entry is left, every flush has run, and nobody is writing. |
| CaptureStop.WorkCountsDown | src/netplay/bridge/console_capture.cpp:1546-1569 | A productive worker step finishes one record or one entry; no other worker step changes what is left. |
| CaptureStop.WorkProgresses | src/netplay/bridge/console_capture.cpp:1512-1541 | After the pause of a stop every worker step lowers the rank while something is left, unless the step needs the mutex and a control thread holds it; then it changes nothing. |
| CaptureStop.DrainFinishes | src/netplay/bridge/console_capture.cpp:1481-1575 | With the mutex free the worker alone finishes everything within rank many steps. |
| CaptureStop.AllLeave | src/netplay/bridge/console_capture.cpp:1642-1692 | After the pause of a stop the threads still inside a write can all leave, and nothing else moves. |
| CaptureStop.HolderReleases | src/netplay/bridge/console_capture.cpp:1695-1746 | A control thread that holds the mutex after that pause can finish its section and release it. |
| CaptureStop.StopCanReturn | src/netplay/bridge/console_capture.cpp:1791-1835 | From any reachable wait of a stop, whoever holds the mutex, steps of the worker, the requester, the holder and the threads already inside a write reach its return. |
| CaptureStop.StopWakes | include/netplay/bridge/console_capture_state.h:6-17 | Draining, Stopping, Stopped: with nothing left the requester wakes, the worker ends, and the requester returns. |
| CaptureCalls.WriteAlone | src/netplay/bridge/console_capture.cpp:1630-1693 | A write alone is accepted, as one sealed record at the next position with the current generation, exactly when the door is open, it fits and a slot is free; otherwise it starts a new generation. Nothing else changes. |
| CaptureCalls.RequestAlone | src/netplay/bridge/console_capture.cpp:1695-1746 | An admitted request alone queues its entries at the end of the ring with the current generation, leaves the door as it found it but for a stop, and frees the mutex. |
| CaptureCalls.LateRequestAlone | src/netplay/bridge/console_capture.cpp:1748-1769 | A request that comes too late queues nothing; a flush without a worker is carried out by its caller, the others close the door. |
| CaptureCalls.WorkerGives | src/netplay/bridge/console_capture.cpp:1546-1552 | With no entry due the worker alone gives the next record after its loss boundary and frees its slot for the next lap. |
| CaptureCalls.WorkerCarriesOut | src/netplay/bridge/console_capture.cpp:1512-1569 | An entry that is due goes first: its loss boundary, its flush if it is one, then its number. |
| CaptureCalls.WorkerRests | src/netplay/bridge/console_capture.cpp:1532-1541 | With nothing to do the worker ends exactly when it was told to stop and ring and queue are empty. |
| LineAssembly.TrimAscii | src/netplay/bridge/console_capture.cpp:135-148 | The loops trim exactly the blanks at both ends. |
| LineAssembly.TrimKeepsCore | src/netplay/bridge/console_capture.cpp:135-148 | The trimmed text is a slice of the text, only blanks are cut, neither end of it is blank, and it is empty if and only if all is blank. |
| LineAssembly.UrgentIsNotBlank | src/netplay/bridge/console_capture.cpp:1206-1229 | A line that is reported early is never blank, so its report carries text. |
| LineAssembly.IsLikelyTextChunk | src/netplay/bridge/console_capture.cpp:106-133 | The counting loop decides the predicate on the bytes before the first NUL. |
| LineAssembly.ContainsCaseInsensitive | src/netplay/bridge/console_capture.cpp:295-328 | The search finds a match at some position, case ignored, if and only if there is one. |
| LineAssembly.ConsoleParser.FindUrgent | src/netplay/bridge/console_capture.cpp:1206-1229 | The keyword loop decides whether the pending line is reported early. |
| LineAssembly.ConsoleParser.ProcessConsoleTextChunk | src/netplay/bridge/console_capture.cpp:1119-1235 | The loop over a chunk leaves the pending line, its snapshot and the reports that feeding the bytes one by one leaves. |
| LineAssembly.ConsoleParser.FlushPendingConsoleOutput | src/netplay/bridge/console_capture.cpp:1237-1259 | A flush reports the trimmed pending line unless it is blank, and empties it. |
| LineAssembly.ChunkIsItsBytes | src/netplay/bridge/console_capture.cpp:1170-1229 | For text of a known source, processing a chunk equals feeding its bytes if and only if the chunk does not end on an early-reported line. |
| LineAssembly.RunIsItsBytes | src/netplay/bridge/console_capture.cpp:1119-1235 | Over any run of text chunks, the assembler equals byte-wise feeding after every chunk if and only if no chunk ends on an early-reported line. |
| LineAssembly.CutsDoNotMatter | src/netplay/bridge/console_capture.cpp:1119-1235 | As long as no chunk of either ends on an early-reported line, two ways to cut the same snapshot-carrying bytes give the same reports and the same left-over. |
| LineAssembly.LinesDependOnBytesOnly | src/netplay/bridge/console_capture.cpp:1119-1235 | Under the same condition the reported texts and the left-over text depend on the characters alone. |
| LineAssembly.CutAfterUrgentMatters | src/netplay/bridge/console_capture.cpp:1206-1229 | For every urgent message followed by non-blank text on a line below 240 characters, a cut between the two reports two lines where the uncut chunk reports one. |
| LineAssembly.CutBeforeBreakIsHarmless | src/netplay/bridge/console_capture.cpp:1206-1229 | A cut between an urgent message and its line break breaks the condition and still gives the same result: for the final lines alone it is not necessary. |
| LineLaws.ShortLinesWait | src/netplay/bridge/console_capture.cpp:1170-1195 | Below 240 bytes nothing is reported: the line grows by the bytes, those not kept as spaces, with the snapshot of its first. |
| LineLaws.BreakEndsLine | src/netplay/bridge/console_capture.cpp:1176-1180 | A line break reports the trimmed pending line, unless it is blank, and starts a new one. |
| LineLaws.FullLineEnds | src/netplay/bridge/console_capture.cpp:1197-1200 | The 240th byte does so too, and is part of the reported line. |
| LineLaws.NulEndsChunk | src/netplay/bridge/console_capture.cpp:1172-1175 | Nothing after a NUL is looked at. |
| LineLaws.TextByCount | src/netplay/bridge/console_capture.cpp:106-133 | A chunk counts as text exactly when it has a byte before its first NUL and at least half of those bytes, rounded down, are text, by their numbers. |
| LineLaws.MatchesIgnoringCase | src/netplay/bridge/console_capture.cpp:295-328 | Characters match exactly when they are equal or the two cases of one letter, by their numbers. |
| LineLaws.UrgentIsAMessage | src/netplay/bridge/console_capture.cpp:1203-1225 | The test of the length hides no message: a line is reported early exactly when it contains one. |
| LineLaws.UnknownReportsAll | src/netplay/bridge/console_capture.cpp:1227-1230 | A chunk of an unknown source reports what a fresh source would, its last line included, and leaves the pending line alone. |
| LineLaws.FlushReportsPending | src/netplay/bridge/console_capture.cpp:1237-1259 | A flush reports the trimmed pending line unless it is blank, and empties it. |
| WakeAccounting.RequirementIsNewer | include/netplay/bridge/console_handoff_policy.h:161-198 | A published requirement is newer than the transition it read and than the write it follows. |
| WakeAccounting.ReadyHasEvidence | include/netplay/bridge/console_handoff_policy.h:56-60 | With a live helper the gate opens only after serving a wake that was requested late enough for a requirement no older than that of its own prompt. |
| WakeAccounting.WakesAreAccounted | src/netplay/bridge/iat_stubs.cpp:2543-2583 | In every interleaving served stays between zero and requested, a finished flush saw at least its snapshot served, every release of a live helper has its evidence, tied to the released prompt, and released prompts only increase. |
| WakeAccounting.FlushKeeps | src/netplay/bridge/iat_stubs.cpp:2403-2413 | A flush's snapshot, native call and counter loop keep the accounting. |
| WakeAccounting.OnlyLateReadersLower | include/netplay/bridge/console_handoff_policy.h:103-117 | A step lowers served if and only if it is a reader storing a request older than the one served; no flush ever does. |
| WakeAccounting.UndisturbedNeverLowers | src/netplay/bridge/iat_stubs.cpp:2543-2583 | In every run in which no thread stores served while another is between its load and its delivery, served never goes down. |
| WakeAccounting.OverlappingReadersLower | src/netplay/bridge/iat_stubs.cpp:2581-2583 | Without that discipline it can: in a run of two overlapping readers served goes from 2 to 1. |
| WakeAccounting.GateKeeps | src/netplay/bridge/revival_takeover.cpp:4786-4869 | The gate takes the timeout serial, then its requirement, releases on what it read, and marks exactly that serial handled. |
| WakeAccounting.PromptKeeps | src/netplay/bridge/ipc_shared.cpp:1000-1045 | Publishing a prompt, one access at a time, keeps the accounting. |
| WakeAccounting.PublisherKeeps | src/netplay/bridge/ipc_shared.cpp:1061-1141 | Publishing a timeout reads the transition and the request, stores the requirement before the serial, and keeps the accounting. |
| WakeCalls.TransitionIsNext | include/netplay/bridge/console_handoff_policy.h:161-170 | A prompt's transition is the first wake newer than its captured write, or without one the last wake, and never 0. |
| WakeCalls.RequirementIsLeast | include/netplay/bridge/console_handoff_policy.h:172-198 | A requirement is met exactly by the wakes newer than the transition and than the captured write. |
| WakeCalls.ReadAlone | src/netplay/bridge/iat_stubs.cpp:2543-2583 | A requested wake that is not served is served by the next read that copies it; any other read changes nothing. |
| WakeCalls.FlushAlone | include/netplay/bridge/console_handoff_policy.h:103-117 | A flush that the console carries out raises served to what was requested; one that fails changes nothing. |
| WakeCalls.PromptAlone | src/netplay/bridge/ipc_shared.cpp:1000-1045 | A newer prompt is published with its transition; any other serial is ignored. |
| WakeCalls.TimeoutAlone | src/netplay/bridge/ipc_shared.cpp:1061-1141 | A timeout is published with its requirement exactly when its prompt's reader is held and it is newer. |
| WakeCalls.GateAlone | src/netplay/bridge/revival_takeover.cpp:4786-4869 | The gate releases a waiting timeout, once, exactly when its helper is gone or its requirement is met. |
| WakeCalls.TwoWakesRelease | src/netplay/bridge/revival_takeover.cpp:4799-4848 | From every reachable state two wakes, read by one thread, and a tick of the gate release the timeout that waits. |
| ExportBarrier.SuspensionIsABarrier | src/netplay/bridge/netplay_state_export.cpp:1323-1371 | For every sampling order with a sandwich, in every interleaving, after a successful suspension no update runs until a resume. |
| ExportBarrier.BarrierExactlyWithSandwich | src/netplay/bridge/netplay_state_export.cpp:1337-1354 | A sampling order is a barrier if and only if it contains in-flight, pending, in-flight. |
| ExportBarrier.CodeSamplesAreSound | src/netplay/bridge/netplay_state_export.cpp:1340-1351 | The code's four reads are sound, so are its first three, and no single pair is. |
| ExportBarrier.OtherOrdersAreUnsound | src/netplay/bridge/netplay_state_export.cpp:1339-1347 | Any other order has a run that reports success while an update is running. |
| ExportBarrier.ProduceKeeps | src/netplay/bridge/netplay_state_export.cpp:286-328 | The second check and the request word set under the lock keep the barrier's invariant. |
| ExportBarrier.WorkKeeps | src/netplay/bridge/netplay_state_export.cpp:223-284 | Counting in before taking the request word keeps it. |
| ExportCalls.ResumedUpdateRuns | src/netplay/bridge/netplay_state_export.cpp:1368-1371 | Wherever a run has led to, after a resume a thread that queues an update with no worker runs it. |
| ExportCalls.ResumedRequestRuns | src/netplay/bridge/netplay_state_export.cpp:1368-1371 | With a worker and the lock free the request is published, and the worker takes it and runs the update. |
| ExportCalls.QueuePublishes | src/netplay/bridge/netplay_state_export.cpp:306-327 | With the lock free a queueing thread publishes the request and leaves nothing else behind. |
| ExportCalls.QueueDrops | src/netplay/bridge/netplay_state_export.cpp:308-320 | With the lock taken the request is dropped. |
| ExportCalls.QueueRefuses | src/netplay/bridge/netplay_state_export.cpp:288-291 | While suspended nothing is counted, published or run. |
| ExportCalls.WorkerUpdates | src/netplay/bridge/netplay_state_export.cpp:254-275 | A waiting worker alone takes a published request and runs the update. |
| ExportCalls.WorkerFinishes | src/netplay/bridge/netplay_state_export.cpp:275-282 | After the update it counts itself out, and waits again if it is told to stop. |
| ExportCalls.RoundAlone | src/netplay/bridge/netplay_state_export.cpp:1337-1362 | A round of samples with nothing else moving succeeds exactly when every word read is zero; at the deadline it fails. Updates stay suspended. |
| ExportCalls.QuietSuspensionSucceeds | src/netplay/bridge/netplay_state_export.cpp:1323-1366 | A suspension that finds nothing in flight and nothing pending succeeds at its first round. |
| ExportCalls.BusySuspensionFails | src/netplay/bridge/netplay_state_export.cpp:1356-1362 | With an update in flight throughout it reports failure at the deadline. |
| ExportCalls.SectionsExclude | src/netplay/bridge/netplay_state_export.cpp:308-324 | In every interleaving no two threads are inside sections of the request lock. |
| GuardReclaim.ReadersAreSafe | src/netplay/bridge/external_launcher_guard.cpp:118-158 | In every interleaving what a reader holds between acquire and release is mapped, and the parent handle it uses is the open one of the same installation. |
| GuardReclaim.ClosedOnceNeverAbandoned | src/netplay/bridge/external_launcher_guard.cpp:940-1006 | Every part of every installed guard is open or closed once, and the branch that abandons a bundle is never taken. |
| GuardReclaim.DrainReclaims | src/netplay/bridge/external_launcher_guard.cpp:940-968 | At rest with no reader counted and no guard published, one drain leaves nothing open. |
| GuardReclaim.ReadKeeps | src/netplay/bridge/external_launcher_guard.cpp:118-158 | A reader's step keeps the invariant: who loaded the pointer was counted before. |
| GuardReclaim.UnpublishKeeps | src/netplay/bridge/external_launcher_guard.cpp:1447-1449 | Taking the pointer back keeps every reader that already has it safe. |
| GuardReclaim.DeferKeeps | src/netplay/bridge/external_launcher_guard.cpp:979-999 | Deferring a bundle finds the deferred place free. |
| GuardReclaim.BeginKeeps | src/netplay/bridge/external_launcher_guard.cpp:1021-1044 | An installation starts only on an empty deferred place. |
| GuardCalls.AcquireAlone | src/netplay/bridge/external_launcher_guard.cpp:118-153 | After any run at rest an acquire alone gets the published marker exactly when a guard is published and, if asked for, delivery is on; otherwise it leaves no trace. |
| GuardCalls.ReleaseAlone | src/netplay/bridge/external_launcher_guard.cpp:155-158 | A reader that holds the marker counts itself out, the parent handle used or not. |
| GuardCalls.DeliveryIsChecked | src/netplay/bridge/external_launcher_guard.cpp:142-152 | In every interleaving a reader that asked for delivery comes to hold the marker only while delivery is on. |
| GuardCalls.RetireSilences | src/netplay/bridge/external_launcher_guard.cpp:1288-1291 | In every interleaving, between a retirement and the next installation no reader that asked for delivery comes to hold the marker. |
| GuardCalls.InstallAlone | src/netplay/bridge/external_launcher_guard.cpp:1009-1165 | At rest with no guard and no reader an installation drains what was deferred and publishes the one open guard, with delivery. |
| GuardCalls.InstallWaitsForReaders | src/netplay/bridge/external_launcher_guard.cpp:1021-1025 | With a reader counted an installation changes nothing. |
| GuardCalls.CleanupAlone | src/netplay/bridge/external_launcher_guard.cpp:1433-1491 | A cleanup takes the published guard back; its parts are closed if no reader is counted, and deferred, still open, otherwise. |
| GuardCalls.DrainAlone | src/netplay/bridge/external_launcher_guard.cpp:940-968 | With no reader counted a drain closes what was deferred, once. |
| FrontendReturn.Frontend.RequestForceTitleFallback | src/netplay/bridge/frontend_return.cpp:874-902 | Fails without permission, waits for a battle that is cleaning up, else asks for the forced title. |
| FrontendReturn.Frontend.RequestNativeExit | src/netplay/bridge/frontend_return.cpp:645-737 | Waits for the screen's own exit, or falls back or fails when the screen's object or the write is missing. |
| FrontendReturn.Frontend.HandleTitleReached | src/netplay/bridge/frontend_return.cpp:739-771 | Hands over to a pending continuation, or completes. |
| FrontendReturn.Frontend.ClassifyAndAdvance | src/netplay/bridge/frontend_return.cpp:1061-1130 | The step for every screen; its recursion with the loading handler terminates. |
| FrontendReturn.Frontend.HandleLoading | src/netplay/bridge/frontend_return.cpp:948-1015 | The loading watchdog: grace, unblock, forced fallback. |
| FrontendReturn.Frontend.HandleNativeWait | src/netplay/bridge/frontend_return.cpp:1017-1059 | The wait for a native exit and its timeout. |
| FrontendReturn.Frontend.TryForceTitleFallback | src/netplay/bridge/frontend_return.cpp:904-944 | Forces the title outside a frame, retries, or waits for a safe point. |
| FrontendReturn.Frontend.AdvanceReturn | src/netplay/bridge/frontend_return.cpp:1389-1444 | The return's own part of a tick, state by state. |
| FrontendReturn.Frontend.HandleNativeUpdateReturn | src/netplay/bridge/frontend_return.cpp:1132-1206 | The state and the screen to show after a screen's own update. |
| FrontendReturn.Frontend.AcceptBegin | src/netplay/bridge/frontend_return.cpp:1327-1379 | What an accepted begin resets. |
| FrontendReturn.Frontend.ConsumeTitleContinuation | src/netplay/bridge/frontend_return.cpp:1457-1486 | Taken as one step, succeeds exactly on a pending continuation and ends the return. |
| FrontendReturn.Frontend.ResetConsumedContinuationLatch | src/netplay/bridge/frontend_return.cpp:1504-1514 | Taken as one step, clears the consumed latch and nothing else. |
| FrontendReturn.Frontend.ObserveBattleUpdate | src/netplay/bridge/frontend_return.cpp:1516-1524 | Notes a battle update during a native battle exit. |
| FrontendReturn.AdvanceKeeps | src/netplay/bridge/frontend_return.cpp:1384-1445 | Every tick keeps a return well formed and its request; one that may be forced never fails; a sure one stays served. |
| FrontendReturn.HeldExactlyWhenSure | src/netplay/bridge/frontend_return.cpp:739-771 | Over all ticks and native results a begun return is kept if and only if it targets the menu, enters it after the title and may be forced. |
| FrontendReturn.FailsOnlyWithoutFallback | src/netplay/bridge/frontend_return.cpp:874-882 | Some run fails if and only if forced fallback is not allowed. |
| FrontendReturn.MenuTargetAloneIsNotHeld | src/netplay/bridge/frontend_return.cpp:751-770 | Without the menu entry after the title such a return completes at the title and is not kept. |
| FrontendReturn.FallbackLands | src/netplay/bridge/frontend_return.cpp:904-944 | A sure return in forced fallback reaches its continuation on a tick if and only if it is outside a frame and the game obeys. |
| FrontendReturn.StuckLoadingIsForced | src/netplay/bridge/frontend_return.cpp:990-1014 | Two ticks past the limit force a loading screen that never ends. |
| FrontendReturn.TimeoutForcesUnlessSuppressed | src/netplay/bridge/frontend_return.cpp:1050-1058 | A timed-out native exit is forced if and only if the fallback is not suppressed. |
| FrontendReturn.SuppressedWaitsForTheGame | src/netplay/bridge/frontend_return.cpp:884-899 | A suppressed fallback waits as long as the battle stays, without deadline. |
| FrontendReturn.SuppressesExactlyAfterUpdate | include/netplay/bridge/frontend_return_state.h:5-20 | Over any calls the fallback may wait if and only if an update was seen since the last preparation and that one restored the patches. |
| ReturnLaws.ExitExactlyWhenPermitted | src/netplay/bridge/frontend_return.cpp:1094-1123 | On character select, a battle or a result the screen's own exit is taken exactly when the request permits it, the object is there and the write works, at that clock reading; otherwise the return is forced, or fails if it may not be. |
| ReturnLaws.ExitsArePermitted | src/netplay/bridge/frontend_return.cpp:1104-1123 | Over all moves of a begun return no exit is ever taken that the request forbids. |
| ReturnLaws.OtherScreens | src/netplay/bridge/frontend_return.cpp:1061-1130 | Done at the target, arrived at the title and its family, waiting while loading, forced on any other screen. |
| ReturnLaws.LoadingDeadlines | src/netplay/bridge/frontend_return.cpp:948-1015 | A loading screen waits; a confirmed disconnect unblocks it once after three seconds; it is forced after ten. |
| ReturnLaws.WaitingAsksAgain | src/netplay/bridge/frontend_return.cpp:1017-1045 | When loading is over or another screen has come the tick is that of a return that asks anew. |
| ReturnLaws.ExitDeadline | src/netplay/bridge/frontend_return.cpp:1046-1059 | A native exit waits five seconds, then is forced unless the battle is cleaning up. |
| ReturnLaws.BattleCleansUp | src/netplay/bridge/frontend_return.cpp:884-899 | When the exit of a disconnect times out in the battle, the title is forced exactly if no update was seen since the exit or its patches were not restored. |
| ReturnLaws.ForcingTick | src/netplay/bridge/frontend_return.cpp:904-944 | Waits inside a frame, tries again when refused, and arrives otherwise. |
| ReturnLaws.ExitAnswer | src/netplay/bridge/frontend_return.cpp:1132-1206 | What each answer of the screen leads to and what the game is told to show. |
| ReturnLaws.OtherAnswersPass | src/netplay/bridge/frontend_return.cpp:1132-1160 | An answer nobody waits for is passed on; the end of loading makes the return ask again. |
| ReturnLaws.WaitingLands | src/netplay/bridge/frontend_return.cpp:904-1059 | A waiting return that may be forced arrives within three obeyed ticks past its deadlines, unless the battle is cleaning up. |
| ReturnLaws.ElapsedAcrossWrap | src/netplay/bridge/frontend_return.cpp:948-960 | Elapsed time is right across the wrap of the 32-bit clock. |
| ReturnWord.AtRestSequential | src/netplay/bridge/frontend_return.cpp:60-76 | Between the game thread's calls the word and its globals are those of the sequential machine after the operations that took effect, in every interleaving of their atomic accesses with latch resets. |
| ReturnWord.ResetNeverChangesOwner | src/netplay/bridge/frontend_return.cpp:1504-1514 | No step of a latch reset changes whether a return is owned, nor anything else of the game thread's. |
| ReturnWord.ResetInsideConsume | src/netplay/bridge/frontend_return.cpp:1479-1486 | A reset that falls between the exchange and the release of a consume takes the latch away: the word ends up inactive. |
| ReturnWord.ConsumesNeverExceedBegins | src/netplay/bridge/frontend_return.cpp:1457-1486 | In every interleaving there are at most as many consumes as accepted begins, and fewer while a return is owned. |
| ReturnWord.SureReturnStaysOwned | src/netplay/bridge/frontend_return.cpp:60-76 | In every interleaving a sure return stays owned, with its own request and no begin accepted, from the swap that begins it to the swap that releases its consume. |
| ReturnWord.BeginAlone | src/netplay/bridge/frontend_return.cpp:65-77 | A begin alone is accepted exactly when no return is owned. |
| ReturnWord.ConsumeAlone | src/netplay/bridge/frontend_return.cpp:1457-1486 | A consume alone succeeds exactly on a pending continuation, and leaves its latch. |
| ReturnWord.ResetAlone | src/netplay/bridge/frontend_return.cpp:1504-1514 | A latch reset alone clears the latch and frees nothing. |
| ReturnWord.CallsFinish | src/netplay/bridge/frontend_return.cpp:397-407 | Wherever a call is, at most four undisturbed turns finish it. |
| AsyncHost.BackgroundHost.OnHostStarted | src/netplay/bridge/async_hosting.cpp:224-298 | Starts an episode: baseline, listener wait, no cooldown. |
| AsyncHost.BackgroundHost.NotifyHostListenerReady | src/netplay/bridge/async_hosting.cpp:547-571 | Accepts exactly the acceptable observations and acknowledges new ones. |
| AsyncHost.BackgroundHost.Rehost | src/netplay/bridge/async_hosting.cpp:155-220 | Ends a challenge, restarts anything else with a cooldown. |
| AsyncHost.BackgroundHost.WatchListener | src/netplay/bridge/async_hosting.cpp:332-392 | The tick's count-down and its observation of the listener. |
| AsyncHost.BackgroundHost.BeginTick | src/netplay/bridge/async_hosting.cpp:325-474 | A tick up to its poll of the return key, every early return included. |
| AsyncHost.BackgroundHost.EndTick | src/netplay/bridge/async_hosting.cpp:478-505 | A new prompt holds the peer; an accepted episode is released. |
| AsyncHost.BackgroundHost.PollKeyEdge | src/netplay/bridge/async_hosting.cpp:82-127 | The key's edge, its timeout and the conditions under which it begins a return. |
| AsyncHost.BackgroundHost.RequestAccept | src/netplay/bridge/async_hosting.cpp:583-590 | Accepts exactly a held peer. |
| AsyncHost.BackgroundHost.Reset | src/netplay/bridge/async_hosting.cpp:621-633 | Ends the episode. |
| AsyncEpisodes.TickBeforeKeeps | src/netplay/bridge/async_hosting.cpp:325-474 | No tick breaks the rules of an episode's history. |
| AsyncEpisodes.ReleaseFollowsAccept | src/netplay/bridge/async_hosting.cpp:478-505 | A release is preceded, without anything between, by a start, a prompt unlike its baseline and an accept. |
| AsyncEpisodes.RestartsAreSpaced | src/netplay/bridge/async_hosting.cpp:445-466 | An automatic restart needs a listener acknowledged since the last start, and 96 ticks since the last restart. |
| AsyncEpisodes.ChallengesAreNeverRestarted | src/netplay/bridge/async_hosting.cpp:155-167 | A hosted lobby challenge is never restarted. |
| AsyncEpisodes.NotifiedKeeps | include/netplay/bridge/async_host_state.h:64-70 | An acknowledgement is what makes a listener ready. |
| HostLaws.ReadyTick | src/netplay/bridge/async_hosting.cpp:445-474 | With a ready listener: a fatal failure ends the episode; after the cooldown a lost peer restarts a direct listener and ends a challenge; a session that is gone ends the episode; else the tick goes on. |
| HostLaws.ObservingTick | src/netplay/bridge/async_hosting.cpp:345-392 | A listener is acknowledged exactly when it has been seen for a tenth of a second and is the one that was started; another one is left to the title flow once and then given up. |
| HostLaws.UnreadyDecision | src/netplay/bridge/async_hosting.cpp:394-443 | A session that is over before its listener was ready, and a listener not acknowledged within fifteen seconds, are given up. |
| HostLaws.ListenerStartsUp | src/netplay/bridge/async_hosting.cpp:345-358 | A listener that stays is ready after two ticks a tenth of a second apart, and not before. |
| HostLaws.PeerTick | src/netplay/bridge/async_hosting.cpp:478-505 | A new prompt holds the peer, an accepted episode is released, nothing else happens. |
| HostLaws.PromptToRelease | src/netplay/bridge/async_hosting.cpp:325-506 | From a ready listener: new prompt, accept, next tick lead to the hand-over. |
| HostLaws.KeyBegins | src/netplay/bridge/async_hosting.cpp:82-127 | A press begins a return exactly when the key is bound and was up, none of its returns is pending or under way, no loading was seen for a second and a half, and the menu is not open. |
| HostLaws.KeyIsForgotten | include/netplay/bridge/async_host_state.h:14-22 | A begun return that never arrives is forgotten after 1200 polls, and not before. |
| HostLaws.StartAwaits | src/netplay/bridge/async_hosting.cpp:224-298 | What a start leaves: a fresh listener, a bound key, the prompts counted from here. |
| HostLaws.EpisodeCalls | src/netplay/bridge/async_hosting.cpp:305-318 | Cancelling closes what there is; the end of a challenge is told once; presence arms the key. |
| ReturnCycle.Bridge.TickFrontendReturn | src/netplay/bridge/frontend_return.cpp:1384-1445 | The re-entrant tick terminates and is the tick of the host, of the lobby, and the return's own part. |
| ReturnCycle.Bridge.TickHost | src/netplay/bridge/async_hosting.cpp:325-506 | The host's tick around a poll that may begin a return. |
| ReturnCycle.Bridge.TickBackgroundLobby | src/netplay/hooks/title_flow.cpp:5035-5102 | The lobby's tick: ended and abandoned challenges, and the poll when nothing is hosted. |
| ReturnCycle.Bridge.PollKey | src/netplay/bridge/async_hosting.cpp:82-153 | The poll and the return it begins. |
| ReturnCycle.Bridge.BeginReturnToFrontend | src/netplay/bridge/frontend_return.cpp:1309-1382 | Accepts exactly when no return is owned, and ticks at once. |
| ReturnCycle.FrontendTickKeeps | src/netplay/bridge/frontend_return.cpp:1384-1445 | Inside an owned return nested calls change nothing of it; otherwise they accept at most the key's request. |
| ReturnCycle.OneBeginPerCall | src/netplay/bridge/frontend_return.cpp:1309-1325 | In any run, no call accepts more than one begin, nested ones included, and none inside an owned return. |
| ReturnCycle.SureReturnIsHeld | src/netplay/bridge/frontend_return.cpp:1309-1445 | In any run of both files without a consume, a sure return stays owned with its own request and no begin is accepted. |
| ReturnCycle.ConsumedOncePerBegin | src/netplay/bridge/frontend_return.cpp:1457-1486 | Consuming succeeds exactly at the title with the request's owner and target, leaves the latch unless a reset fell inside it, and does not succeed again before another accepted begin. |
| ReturnCycle.HostingOverAnyRun | src/netplay/bridge/async_hosting.cpp:155-506 | In any run of both files every release and every automatic restart is earned as above. |
| CycleLaws.PressReturns | src/netplay/hooks/title_flow.cpp:5097-5101 | Whatever the nested calls bring, a press in the background accepts one return to the menu, which is owned afterwards with the key's request, and the key is pending. |
| CycleLaws.PressWhileHosting | src/netplay/bridge/async_hosting.cpp:476-476 | So does a press while hosting, before the rest of the host's tick. |
| CycleLaws.DisconnectIsConsumed | src/netplay/bridge/frontend_return.cpp:1132-1206 | A disconnect begun in a battle asks for its exit at once; the battle's answer is not shown, the continuation is consumed once, and a session start clears its latch. |
| CycleLaws.DisconnectWaitsForBattle | src/netplay/bridge/frontend_return.cpp:884-899 | If the battle goes on, its first update makes the timeout wait for it; without one the title is forced. |
| CycleLaws.PeerIsHandedOver | src/netplay/bridge/async_hosting.cpp:478-505 | Over ticks of the return a found peer is held, the user accepts it, and the next tick hands the episode over. |
| CycleLaws.QuietTick | src/netplay/bridge/frontend_return.cpp:1384-1445 | With the key up a tick of the return is the host's tick and the return's own. |
| HttpFraming.IsHttpResponseComplete | include/netplay/core/tls_http_client.h:46-121 | The loop computes the verdict and the close flag of the specification, and terminates on naturals. |
| HttpFraming.LowerInPlace | include/netplay/core/tls_http_client.h:55-61 | The in-place loop lower-cases every ASCII letter and nothing else. |
| HttpFraming.LoweredHeaders | include/netplay/core/tls_http_client.h:54-61 | The searched copy is the head between line breaks, lower-cased. |
| HttpFraming.CompleteIsStable | include/netplay/core/tls_http_client.h:46-121 | For arbitrary bytes, a buffer reported complete stays complete under every extension. |
| HttpNumbers.NumeralParses | include/netplay/core/tls_http_client.h:80-88 | After spaces, a sign and a hexadecimal prefix, a numeral printed from digit tables, with leading zeros and either case, is read as its number, saturated and negated in 32 bits. |
| HttpNumbers.NoDigitNoNumber | include/netplay/core/tls_http_client.h:82-88 | Without a digit after spaces and sign there is no number. |
| HttpNumbers.PrintedSpells | include/netplay/core/tls_http_client.h:82-82 | The numeral without leading zeros, in either table, is such a numeral. |
| HttpWordCursor.WordTurnAgrees | include/netplay/core/tls_http_client.h:76-103 | The 32-bit chunk turn and the one on naturals agree if and only if the cursor does not wrap into the buffer. |
| HttpWordCursor.WordTurnGoesBack | include/netplay/core/tls_http_client.h:90-103 | The 32-bit turn fails to move the cursor forward if and only if the size carries it past 2^32 and no further than where it was. |
| HttpWordCursor.BackwardTargets | include/netplay/core/tls_http_client.h:90-103 | These are the sizes that lead to 2^32 up to 2^32 plus the cursor. |
| HttpWordCursor.SmallSizesNeverWrap | include/netplay/core/tls_http_client.h:99-103 | Sizes up to 2^31 never wrap in a buffer below 2^31 - 4 bytes. |
| HttpWordCursor.EndsExactlyWithoutRepeat | include/netplay/core/tls_http_client.h:72-104 | The 32-bit loop ends if and only if it never comes back to a cursor, and then within two turns more than there are bytes. |
| HttpWordCursor.ForwardAnswers | include/netplay/core/tls_http_client.h:46-121 | If no turn it takes goes back, the 32-bit recogniser answers within as many turns as there are bytes. |
| HttpWordCursor.UnwrappedAnswersAgree | include/netplay/core/tls_http_client.h:46-121 | If no turn it takes wraps into the buffer, its answer is the verdict and the close flag of the recogniser on naturals. |
| HttpWordCursor.StallNeverAnswers | include/netplay/core/tls_http_client.h:71-104 | On any bytes whose chunk loop begins at a line FFFFFFF4 the 32-bit recogniser stays in its loop for ever. |
| HttpWordCursor.ChunkedHeadStalls | include/netplay/core/tls_http_client.h:46-104 | Every chunked head followed by that line, whatever comes after it, is such a response. |
| HttpMessages.VerdictOfHead | include/netplay/core/tls_http_client.h:46-121 | For any head and any bytes after it the verdict depends on the fields and those bytes only. |
| HttpMessages.BlankEndsHead | include/netplay/core/tls_http_client.h:48-52 | The first empty line of a printed message ends its head. |
| HttpMessages.FindField | include/netplay/core/tls_http_client.h:62-69 | Searching the lowered head for a field finds the first line that carries it, and nothing when none does. |
| HttpMessages.BodyIsExact | include/netplay/core/tls_http_client.h:69-105 | The chunk loop is done on a whole printed body, the sizes printed from digit tables, and asks for more on every proper prefix. |
| HttpMessages.ChunkedIsExact | include/netplay/core/tls_http_client.h:69-105 | A printed chunked message is complete, and none of its proper prefixes is. |
| HttpMessages.LengthIsExact | include/netplay/core/tls_http_client.h:107-120 | A printed message with Content-Length is complete, and none of its proper prefixes is. |
| HttpMessages.UnframedNeverCompletes | include/netplay/core/tls_http_client.h:107-115 | Without length and chunking a response is never complete and asks for the close. |
| HttpFields.FieldInAnyCase | include/netplay/core/tls_http_client.h:54-69 | A field is found exactly when some line says it in some mixture of cases, letter by letter from the alphabet. |
| HttpFields.ChunkedMessage | include/netplay/core/tls_http_client.h:69-105 | A printed message with a line saying transfer-encoding: chunked is complete on its last byte and on no proper prefix, to be closed exactly when a line says connection: close. |
| HttpFields.LengthMessage | include/netplay/core/tls_http_client.h:107-120 | The same of a message whose first content-length line gives the length of its body. |
| HttpFields.UnframedMessage | include/netplay/core/tls_http_client.h:107-115 | Without either line no message is complete, and the connection is to be closed. |
| MatchLifecycle.EndsExactlyOnce | include/netplay/core/lobby_lifecycle.h:29-68 | In every interleaving of the loops each challenge is ended by at most one end or reject, and its return is consumed at most once, after that end returned Connected. |
| MatchLifecycle.ExecKeeps | include/netplay/core/lobby_lifecycle.h:41-68 | Every load, every compare-and-swap and every spurious failure keeps the log's invariant. |
| MatchLifecycle.RunsAreSequential | include/netplay/core/lobby_lifecycle.h:29-68 | In every interleaving the phase and every answer are those of the sequential object after the calls that took effect, and the history of ends and consumes is theirs. |
| MatchLifecycle.EffectOnce | include/netplay/core/lobby_lifecycle.h:41-68 | A call takes effect once: not after it has, and before its thread leaves it. |
| MatchLifecycle.CallsTakeEffect | include/netplay/core/lobby_lifecycle.h:29-60 | A call made by a thread that is in none takes effect at once, or begins its loop. |
| MatchLifecycle.EndFinishes | include/netplay/core/lobby_lifecycle.h:55-68 | From anywhere inside an end three undisturbed turns bring the thread back with the right answer. |
| MatchLifecycle.RejectFinishes | include/netplay/core/lobby_lifecycle.h:41-49 | The same of a reject. |
| MatchLifecycle.ConnectedEndIsConsumed | include/netplay/core/lobby_lifecycle.h:50-68 | The end of a connected match leaves its return to be consumed, once. |
| ResetGate.EfzOverlayResetGate.BindBackend | include/compat/overlay_reset_gate.h:35-41 | Binds exactly when rendering is allowed; a pending reset stays pending. |
| ResetGate.EfzOverlayResetGate.UnbindBackend | include/compat/overlay_reset_gate.h:43-48 | Unbinds; a pending reset stays pending. |
| ResetGate.EfzOverlayResetGate.BeforeReset | include/compat/overlay_reset_gate.h:57-75 | The result of every case, the new state, and when the backend has to be invalidated. |
| ResetGate.EfzOverlayResetGate.DidInvalidateBackend | include/compat/overlay_reset_gate.h:77-79 | Records an invalidation exactly when the bound device is the resetting one. |
| ResetGate.EfzOverlayResetGate.AfterReset | include/compat/overlay_reset_gate.h:81-98 | The result of every case, and the return to idle on a ready completion only. |
| ResetGate.RunIsGood | include/compat/overlay_reset_gate.h:30-98 | After any run of calls a pending gate belongs to the last accepted request, and an invalidated backend was invalidated since. |
| ResetGate.InvalidatedIsBound | include/compat/overlay_reset_gate.h:77-79 | In any run an invalidated backend is the one bound to the resetting device. |
| ResetGate.CompletionIsEarned | include/compat/overlay_reset_gate.h:81-98 | A ready completion is for the last accepted epoch, device and thread, with that device's backend invalidated if it is still bound. |
| ResetGate.PendingHolds | include/compat/overlay_reset_gate.h:35-48 | Until a ready completion no bind or unbind clears a pending reset, and nothing binds its device. |
| ResetGate.AcceptedEpochMovesForward | include/compat/overlay_reset_gate.h:62-68 | While a reset is pending an accepted epoch is not behind the one on record, modulo 2^32. |
| GateLaws.WholeReset | include/compat/overlay_reset_gate.h:57-98 | A request, an invalidation and a ready completion by the thread that may ask are each accepted, nobody can draw on the device in between, and the gate is as before. |
| GateLaws.RequestsExactlyWhen | include/compat/overlay_reset_gate.h:57-69 | When a request is accepted, and the reason of each refusal. |
| GateLaws.CompletionsExactlyWhen | include/compat/overlay_reset_gate.h:81-90 | When a completion is accepted, and the reason of each refusal. |
| GateLaws.DrawsExactlyWhen | include/compat/overlay_reset_gate.h:30-33 | A device may be drawn on exactly when it is not being reset and no other thread owns the backend. |
| GateLaws.BoundByLastBind | include/compat/overlay_reset_gate.h:35-48 | After any run the bound device and its owner are those of the last granted bind, unless an unbind came after it. |
| GateLaws.StaleIsBehind | include/compat/overlay_reset_gate.h:66-68 | A stale epoch lies up to 2^31 behind the one on record, across the wrap. |
| PatchLog.Patcher.WriteProcessMemoryLocal | src/netplay/core/patch_utils.cpp:10-25 | Writes the bytes if and only if the page can be unprotected. |
| PatchLog.Patcher.ApplyPatch | src/netplay/core/patch_utils.cpp:27-62 | The result, the memory and the log entry of every case. |
| PatchLog.Patcher.RestorePatches | src/netplay/core/patch_utils.cpp:64-76 | The reverse loop leaves the undone memory and an empty log. |
| PatchLog.UndoneByte | src/netplay/core/patch_utils.cpp:71-74 | Undoing leaves each byte as the oldest restored record over it saved it. |
| PatchLog.CallTakesEffect | src/netplay/core/patch_utils.cpp:27-62 | Byte by byte: a call takes effect exactly when it has bytes to write, the expected ones are there and the page can be written; then exactly its bytes are new and the log holds the old ones. |
| PatchLog.RestoredByte | src/netplay/core/patch_utils.cpp:27-76 | After any calls a byte is back if the oldest record over it was written back, some failures elsewhere included. |
| PatchLog.RestoreUndoesEverything | src/netplay/core/patch_utils.cpp:27-76 | After any calls, overlapping, rejected and failed ones included, successful restores bring back the whole memory. |
| PatchLog.ApplyAllThenRestore | src/netplay/core/patch_utils.cpp:27-76 | The same of the methods on the array. |

## Left out

- Concurrent protocols are transitions on values, not classes: one step per atomic access or critical section,
  sequentially consistent; weak memory orders are not modelled.
- Serials, positions, generations and tick counters are naturals or integers except where a row says 32 bits; clock
  readings, epochs and listener serials wrap as in the source.
- Console capture: one worker lifetime that starts with empty fragments; emergency shutdown, a second concurrent stop,
  a restart that carries old fragments over, and a failing allocation while queueing an entry are left out. A record's
  payload is a number; whether its bytes are text is the subject of `LineAssembly`.
- Console capture: the worker may look at the queue at any time, so waiting, timeouts and notifications are not
  modelled.
- LineAssembly: one source at a time; the interplay of several tags, unknown tags beyond a single chunk and the
  conversion of wide text are left out, and characters stand for bytes.
- WakeAccounting: the reader's tests that come before it loads the request, the reset of the counters at session start
  and other console input are left out; whether the prompt's reader is still held, and whether the helper lives, are
  inputs. There is one gate.
- GuardReclaim: control calls are serialised with one another, as the drain's test and claim are two steps; the
  serials of the signal that a marker carries are left out.
- ExportBarrier: the status that an update exports is not part of the state.
- FrontendReturn: calls into the game, the patch code and the helper are inputs; logging, hook installation, the
  throttling of log lines and `SuspendUpdateHooksForOnlineSimulation` are left out.
- FrontendReturn.Frontend.ConsumeTitleContinuation: one step here; the starting threads' latch resets
  (`src/netplay/bridge/session_lifecycle.cpp:52`) that can fall inside it are the subject of `ReturnWord`.
- FrontendReturn.Frontend.ResetConsumedContinuationLatch: one step here; its swap loop is taken apart in `ReturnWord`.
- ReturnCycle.ConsumedOncePerBegin: whether a reset fell inside the consume is an input, and a reset elsewhere falls
  between calls, as `ReturnWord.AtRestSequential` allows.
- AsyncHost: port, nickname, network configuration and the overlay's minimised flag are not part of the state; calls
  that cancel or start a session are inputs. Of the thread that a session start runs on, the latch reset is modelled.
- ReturnCycle: `TickBackgroundLobby` is modelled as far as it touches hosting; lobby polling and sounds are left out.
- HttpFraming, HttpWordCursor: the value of `strtoul` on digits that overflow is the largest unsigned long, and a `0x`
  without a digit after it reads as 0, as in standard C.
- MatchLifecycle: the predicates that only read the phase are left out, and `SpectateLifecycle` would repeat an easier
  proof.
- ResetGate: the try-acquired access flag is left out; each call is one step.
- PatchLog: page protection succeeds or fails as an input; logging is left out.
