# BuilderGate, verified in Dafny

A model of the parts of BuilderGate that coordinate concurrent actors or must not lose a byte, with proofs about every
input, every run and every interleaving. `dafny verify dfyconfig.toml` checks the whole project.

## What is modelled

**The daemon lifecycle.** A launcher, a sentinel watchdog, the application and any number of stop clients share one
JSON record. `DaemonState` holds the record, its validation and the read-modify-write updaters. `StopClient` is
`stopDaemon` as an automaton over what it reads, is told, requests, kills and writes. `Lifecycle` is the whole
protocol as a step system: one sentinel, any number of stop clients, dying apps and a clock, with every operation of
the sentinel and the clients a step of its own, each of which may throw. `LifecycleInvariant`, `LifecycleHistory` and
`LifecycleTheorems` prove what every run keeps. `TickOutcomes` and `StopOutcomes` say how a tick and a stop end, over
what they read and were answered alone and apart from the step systems, and prove that these do so.
`LifecycleProgress` shows that a restart and a stop remain possible where they should be. Two imperative modules tie
the automata to the code's own form: `SentinelTick` (a tick with its waits, compare-and-sets, catch block and loop
handler) and `StopDaemon` (the stop sequence with its deadline) are proved to be runs of those automata, whatever the
environment answers. `RestartPolicy` is the restart budget, `Readiness` the health identity and the readiness wait,
`StateLock` the lock and the atomic write taken apart into single file operations of N processes, `UpdateSessions`
what one call of an update leaves among all the others, `LockedUpdates` the proof that these amount to the single
writes of `Lifecycle`, and `Launcher` the start of a daemon up to the state from which the protocol runs.

**Icon files.** `ShiftRegister` is polynomial division for any 32-bit generator, `Crc32` the table-driven checksum
with its cached table against the bit-at-a-time definition of RFC 2083, section 3.4, and `IconContainers` the PNG,
ICNS and ICO writers over byte buffers, each with an independent reader.

**Session subscriptions.** `Subscriptions` says what each event does to the maps and sets of the web client's provider,
what every run keeps, and what a run makes of each session, told from its events alone; `WebSocketProvider` is the
object with its methods.

**The divergence record** of the re-seal tool (`Divergence`, `Sorting`): counting loops, drifts and relocations, what
an empty record means, that a record depends only on what the inventories hold, and how far its count of changed
hashes is from the number of changed tuples.

**The editor**: `LineEndings` for byte-exact saving, `EditorRestore` and `EditorWindows` for documents, stored records
and the reads in flight between them, and `EditorStory` for what a page shows, told from its events alone as sets.

**Files**: `LogRotation` over a map of generations, and `AssetSwap` for the transactional swap of the web assets, with
a failure at any file operation.

Where the source changes state in place, a class or a method with loops does so here, and its `ensures` ties the new
state to a specification on values; the theorems are about that specification.

## Where the code does less than it says

Each of these is proved, with the condition under which the code does what it says and with inputs for which it does
not.

- A PNG chunk that `pngChunk` writes conforms to section 3.2 of RFC 2083 exactly when its data is shorter than 2^31
  bytes, the four stored type bytes are letters, and the CRC over the whole given type is that over the stored one
  (`IconContainers.WrittenChunkConforms`). The writer accepts data up to 2^32 - 1 bytes, and types of any length: for
  a type of four bytes the CRC is always right, a shorter type never conforms (`IconContainers.FourByteTypeConforms`),
  and 2^31 bytes of data are one too many (`IconContainers.LongChunkIsNoPngChunk`).
- The rotation comment (`tools/daemon/log.js:52`) promises a total of `maxBytes * (keep + 1)`; the limit is checked
  before the append. For every limit and every number of generations the promise holds of all histories with messages
  up to some length exactly when that length is at most one byte (`LogRotation.DocumentedTotalIsMet`); what holds
  instead is `LogRotation.TotalIsBounded`, and that bound is attained (`LogRotation.BoundIsAttained`).
- A throw of `stageFrontendAssets` does not always leave the target as it was: it does exactly unless the way back of
  a failed installation failed too, or a new build was installed and one of the two removals after that failed
  (`AssetSwap.ThrowKeepsTarget`, over the operations that fail and the build that was there). When only the removal of
  the backup fails the new build is in place, and when installation and way back fail there is none
  (`AssetSwap.ThrowsThatChangeTheTarget`).
- `evidenceHashOnlyChangedTuples` compares sorted hashes position by position, and only at places that hold as many
  entries as before. Of these it never reports fewer than changed, and the right number exactly when at each of them
  the positions of every hash on one side include those on the other (`Divergence.CountCoversChanges`); one change of
  three can count three times (`Divergence.OneChangeCountedThreeTimes`). The changes at all other places are missed
  (`Divergence.SkippedPlace`); there are none exactly when those places only lost entries
  (`Divergence.AllChangesCompared`).
- Closing a document does not stop what is already on its way to it. It stays closed, until it is asked for again,
  exactly when no open and no image step heading to it was in flight at the close (`EditorRestore.CloseIsFinal`). Runs
  in which it comes back: `EditorRestore.ClosedImageComesBack` and `EditorRestore.SecondReadReopens`.
- An image step loses a pending record without opening it exactly when neither of its two paths is open any more when
  it lands (`EditorRestore.StepDropsRecord`); `EditorRestore.StepLosesRecord` is a run in which it does.
- A store that names a path twice opens it twice (`EditorRestore.TwoRecordsTwoDocuments`, and as a run
  `EditorRestore.StoredTwiceOpensTwice`); a landing batch keeps one document per path exactly when what it admits has
  different paths (`EditorRestore.LandingKeepsDistinct`), and a store this code has written names none twice
  (`EditorRestore.SavedIsDistinct`).
- A line break typed next to a stray carriage return or line feed that was kept as a byte can merge with it into one
  CRLF (`LineEndings.SeamCanMerge`). The saved breaks of a transaction are those of its kept and inserted texts
  exactly when no carriage return meets a line feed at an end of a changed range
  (`LineEndings.TransactionKeepsBreaks`; for one change `LineEndings.OneEditKeepsBreaks`).
- The launcher says it refuses to overwrite a record while its processes run. While the app runs, it replaces the
  record exactly when that is not live any more, when something else than that app answers on the recorded port, or
  when it is running and its sentinel is gone (`Launcher.RunningAppLosesRecord`); while only the sentinel runs,
  exactly when the record is not live or is running (`Launcher.RunningSentinelLosesRecord`).
  `Launcher.CrashedSentinelExposesApp` is a run of the protocol that ends in such a record, fatal or still running,
  with the app alive. What then still stops a start is the test whether its port is free.
- The launcher's fatal write after a failed readiness wait is unconditional. It is a write the protocol allows exactly
  while nobody else has written the record since (`Launcher.LateFatalWriteIsAllowed`): it can undo a restart
  (`Launcher.LateFatalWriteOrphans`), a stop (`Launcher.LateFatalWriteUndoesStop`) and already a heartbeat. The fatal
  write of the handler is never allowed over a live record (`Launcher.HandlerWriteIsNeverAllowed`).
- A lock holder that takes longer than LOCK_STALE_MS loses the lock without noticing: as soon as the lock file is too
  old, every process that is not inside an update can get inside as well (`StateLock.StaleLockIsStolen`, and
  `StateLock.SlowHolderBreaksExclusion` as a run). Exclusion and the sequence of updates are proved of the runs in
  which no lock file gets that old; that readers see whole records is proved of all.

## Model

| member | source | states |
|---|---|---|
| LifecycleTheorems.NoOrphanWhenTickEnds | tools/daemon/sentinel.js:378-560 | in every run, when a tick ends on any path, the only running app the sentinel ever started is the recorded one, and it has not been killed |
| LifecycleTheorems.NoOrphanEver | tools/daemon/sentinel.js:378-560 | at every moment a running app the sentinel started is recorded, or in the hands of a live sentinel, or was released by a confirmed shutdown |
| TickOutcomes.TickEndsLawfully | tools/daemon/sentinel.js:378-598 | in every run each tick ends as what it came across calls for: a crash exactly if an operation outside the catch block threw; quietly exactly if the record read last was not running; `continue`, `restart` and fatal exactly in their cases; its new app is killed exactly if something threw, its restart was refused or it did not get ready; the recorded restart is the one the budget granted; a fatal record carries its reason; and no due heartbeat is left out |
| TickOutcomes.SettledRestart | tools/daemon/sentinel.js:505-545 | in every run, an app whose readiness wait settled, with nothing thrown and the record still running after it, is kept and reported as restarted if it is ready, and otherwise killed and recorded as a fatal app startup, unless the record was taken over first |
| LifecycleTheorems.LifecycleSafety | tools/daemon/sentinel.js:206-283 | the status only moves running to running, stopping or fatal, and stopping or fatal to stopped; nothing undoes a marker |
| LifecycleTheorems.ExactlyOneWinner | tools/daemon/sentinel.js:477-502 | from one attempt, generation and app at most one restart or stop marker is ever written, and `stopped` at most once |
| LifecycleTheorems.GenerationFencing | tools/daemon/sentinel.js:458-495 | a generation is recorded with one app, and the recorded app was started with the recorded generation |
| LifecycleTheorems.RestartRateBound | tools/daemon/sentinel.js:57-85 | in every run, one window holds at most maxRestarts restarts, the later of two comes at least the sum of min(maxBackoffMs, initialBackoffMs * 2^(n-1)) over the counts n in between after the earlier, and any interval as long as a window holds at most twice as many |
| LifecycleTheorems.DecisionFollowsHistory | tools/daemon/sentinel.js:57-85 | at any time of every run a restart is allowed exactly while fewer than maxRestarts of those in the history lie in the open window, as the next of them, in that window or a new one, and after the pause written out in the policy's fields |
| LifecycleTheorems.ComposedStopGuarantee | tools/daemon/stop-client.js:526-761 | a stop begun from running that reports stopped wrote both markers itself; at each of its shutdown requests in the run the sentinel had exited and its marker was in the history; the app is gone, or fell silent after a request answered with clean evidence; its acts came in that order; and nothing ever writes the record or restarts again |
| LifecycleTheorems.RequestComesAfter | tools/daemon/stop-client.js:613-645 | whenever a stop begun from running sends a shutdown request, in any run, the sentinel has exited and the stop's marker is in the history |
| LifecycleTheorems.LoserLeavesNothing | tools/daemon/stop-client.js:296-318 | a client that reports not running, exit 2 or a lost first marker leaves no entry under its name in the history of the run, and none of its acts was a request, a kill or a write |
| LifecycleTheorems.OrphanIsTerminated | tools/daemon/stop-client.js:443-524 | in every run the app that a stop found on the port of a fatal record and terminated is gone from then on |
| LifecycleTheorems.RunIsAttributed | tools/daemon/stop-client.js:296-318 | every entry under a client's name in the history is one the client believes it wrote, unless it ended with a throw |
| LifecycleTheorems.StoppedForGood | tools/daemon/stop-client.js:308-318 | once the record is stopped, no later event of the run changes it |
| LifecycleTheorems.RunIsCredited | tools/daemon/stop-client.js:296-318 | every marker a client believes it wrote is in the history of the file, under its name |
| LifecycleProgress.RestartIsPossible | tools/daemon/sentinel.js:378-546 | from every state between two ticks with a running record, a dead app and budget left, the protocol can go on so that the tick ends with any unused pid recorded as the next generation, and running |
| LifecycleProgress.StopIsPossible | tools/daemon/stop-client.js:526-761 | from every state between two ticks in which the daemon serves, a new stop client can go on so that it reports stopped, the record is stopped and the sentinel gone |
| LifecycleInvariant.RunKeepsInv | tools/daemon/sentinel.js:562-654 | the invariant of record, sentinel, processes, handed generations and clients holds in every state of every run |
| LifecycleInvariant.SentinelKeeps | tools/daemon/sentinel.js:206-598 | every step of the sentinel keeps the invariant and disturbs no stop client |
| LifecycleInvariant.KillSentinelKeeps | tools/daemon/stop-client.js:714-722 | terminating a stuck sentinel never strands an app |
| LifecycleInvariant.StoppedWriteIsDue | tools/daemon/stop-client.js:276-318 | a stopped marker only replaces a stopping record, or a fatal one whose app is dead |
| LifecycleHistory.RunIsChained | tools/daemon/state-store.js:388-410 | the history of the file is one chain of legal writes, each made over what its predecessor left |
| LifecycleHistory.MarkersAreFinal | tools/daemon/sentinel.js:206-283 | after a stopping or fatal marker the only later write is stopped, and after stopped there is none |
| LifecycleHistory.OneWinnerPerGeneration | tools/daemon/stop-client.js:240-318 | two markers that both win carry different generations |
| LifecycleHistory.GenerationsGrow | tools/daemon/sentinel.js:489-495 | generations never fall, and a later record with the same generation names the same app |
| LifecycleHistory.RunIsTimed | tools/daemon/sentinel.js:386-437 | the restarts of every run are admissible for the policy: within the budget, and after their backoffs |
| DaemonState.UpdatesStayValid | tools/daemon/state-store.js:118-150 | every updater turns a valid record into a valid one, the fatal one exactly when its message is not blank |
| DaemonState.AcceptedWhen | tools/daemon/sentinel.js:206-283 | when each of the five updates is accepted, over attempt, status, app, generation and the daemon's identity |
| DaemonState.UpdatesWrite | tools/daemon/state-store.js:245-289 | what each accepted update writes, field by field, and which fields it keeps |
| DaemonState.HeartbeatMakesNobodyLose | tools/daemon/sentinel.js:262-274 | a heartbeat landing first never decides a compare-and-set of a restart or a stop |
| DaemonState.RestartAndStopExclude | tools/daemon/stop-client.js:240-306 | of a restart and a stop marker planned on one record, the first to land makes the other fail |
| SentinelTick.RunSentinelTick | tools/daemon/sentinel.js:562-598 | a tick of the code, with others acting between its operations and any operation throwing, is a run of the step system that ends the tick with no orphan, and its result, the fate of the app it started and the markers it wrote are those its log of reads, answers and throws calls for |
| SentinelTick.RestartApp | tools/daemon/sentinel.js:378-456 | the restart up to its second decision follows the step system on every path |
| SentinelTick.SpawnAndCommit | tools/daemon/sentinel.js:439-475 | from the preflight on, every path follows the step system to the end of the tick |
| SentinelTick.Commit | tools/daemon/sentinel.js:477-503 | a commit that is refused kills the new child and leaves quietly; one that throws leaves the child to be killed; else the restart goes on |
| SentinelTick.FinishRestart | tools/daemon/sentinel.js:505-559 | the restart is reported exactly when its app got ready, nothing threw and the record was live when read last, and then the app was not killed; an app that did not get ready is killed and leaves a fatal app-startup record, or the record was taken over |
| SentinelTick.WaitForReadinessWithStatePolling | tools/daemon/sentinel.js:316-376 | the polling wait ends settled as it was answered, leaving, or thrown with the child still in hand; a poll refreshes the heartbeat exactly when the last refresh, or the start, is at least 5000 ms ago |
| SentinelTick.WaitForRestartBackoff | tools/daemon/sentinel.js:285-314 | while others act, the loop sleeps exactly the backoff, or leaves at the first record that tells it to, and follows the step system |
| SentinelTick.RefreshHeartbeat | tools/daemon/sentinel.js:250-283 | the heartbeat of a tick and of a readiness wait is one code path with the step system's outcomes |
| SentinelTick.MarkFatalState | tools/daemon/sentinel.js:206-248 | the fatal marker is written, refused or thrown as the step system says |
| SentinelTick.CrashOut | tools/daemon/sentinel.js:624-641 | the handler around the tick ends it with its own fatal write |
| RestartPolicy.OneWindowAtMostMax | tools/daemon/sentinel.js:57-85 | restarts that share a window are consecutive and at most maxRestarts |
| RestartPolicy.AnyIntervalAtMostTwiceMax | tools/daemon/sentinel.js:57-85 | restarts written within one window length are at most 2 * maxRestarts |
| RestartPolicy.IntervalBound | tools/daemon/sentinel.js:57-85 | any closed interval as long as the window holds at most 2 * maxRestarts restarts |
| RestartPolicy.BackoffsAccumulate | tools/daemon/sentinel.js:79-84 | a later restart of a window comes at least the sum of the pauses in between, written out in the policy's fields, after the earlier one |
| RestartPolicy.BackoffIsPromised | tools/daemon/sentinel.js:79-84 | the pause before the n-th restart of a window is the initial one doubled n - 1 times, up to the maximum |
| RestartPolicy.DecisionIsExact | tools/daemon/sentinel.js:57-85 | for any admissible history and the record it left, a restart is allowed exactly while fewer than maxRestarts lie in the open window, with their number plus one as its count |
| RestartPolicy.WindowsAdvance | tools/daemon/sentinel.js:65-68 | window starts never go back |
| StopClient.StopCertificate | tools/daemon/stop-client.js:526-761 | for any accepted sequence of acts: a stop begun from running that reports stopped wrote its marker, then saw the sentinel gone, only then sent a request, then saw the app gone or health silent after an accepted request, and wrote the stopped marker last; a refusal touched nothing; success is reported exactly with an own stopped marker |
| StopOutcomes.ExitCodeMeans | tools/daemon/stop-client.js:526-761 | exit 0 exactly when the stop read nothing it could stop, and touched nothing, or wrote the stopped marker last; 2 exactly when its last act is a failed validation, and nothing was touched; 3 exactly when it is a marker that lost; 1 exactly when it gave up |
| StopOutcomes.StopEndsAs | tools/daemon/stop-client.js:443-761 | the result of every accepted sequence of acts, each exactly under a condition on the acts: not running iff the record read first is none, not a daemon's, starting, stopped, or fatal with nothing to look for or nobody on its port; validation failed, lost before stopping, lost before stopped iff the last act is that answer; the three successes iff it is an own stopped marker, told apart by what was seen; failure iff it is one of the answers on which a stop gives up |
| StopOutcomes.StopAcceptsWhatMayCome | tools/daemon/stop-client.js:443-761 | after any acts the stop goes on with exactly the acts that may come, and is over exactly when they end it: no marker before both processes were validated or seen gone, no request before the app was seen alive behind a settled sentinel, no termination of the sentinel before the silence, no stopped marker before what it reports |
| StopOutcomes.StopWarns | tools/daemon/stop-client.js:618-741 | a stop warns of exactly what its acts were answered, in order: a late sentinel, degraded or skipped sessions, a terminated sentinel |
| StopClient.KnowledgeOfWholeStop | tools/daemon/stop-client.js:526-761 | what a client knows at each point holds after any sequence of acts |
| StopClient.AcceptedExactlyClean | tools/daemon/stop-client.js:157-214 | evidence and policy accept exactly fully reported cleanups with no remaining descendant, nothing counted twice and, when strict, nothing degraded or skipped |
| StopClient.AcceptedExactly | tools/daemon/stop-client.js:116-214 | a shutdown response is accepted exactly when it is a 200 that does not deny and reports a workspace flush with path, time, counts and marker, and a clean and complete session cleanup |
| StopDaemon.StopDaemon | tools/daemon/stop-client.js:526-761 | the call follows the automaton to its result, which its acts determine: not running, validation failed, both lost markers and every success exactly under their conditions; it ends within timeout, two intervals and the forced timeout, begins every budgeted wait with a positive remainder of one deadline and gives it no more |
| StopDaemon.TryStopFatalPortOwner | tools/daemon/stop-client.js:443-524 | the orphan path follows the automaton within the deadline |
| StopDaemon.StopGoneApp | tools/daemon/stop-client.js:553-577 | the path of an app that was already gone follows the automaton within the deadline |
| StopDaemon.StopLive | tools/daemon/stop-client.js:579-761 | the path of a live app follows the automaton within the deadline |
| StopDaemon.RequestShutdown | tools/daemon/stop-client.js:641-698 | the shutdown request starts with a positive budget and is judged by its evidence |
| StopDaemon.TerminateStuckSentinel | tools/daemon/stop-client.js:714-737 | the forced exit runs under its own timeout and ends in a dead sentinel or a failure |
| StopDaemon.ValidateAndMark | tools/daemon/stop-client.js:579-611 | both processes are validated before the stopping marker, a resumed stop validates the app only; it goes on exactly when its last act is that, validation failed exactly when it is a failed validation, lost exactly when it is a refused marker |
| StopDaemon.AwaitSentinel | tools/daemon/stop-client.js:613-635 | the sentinel is awaited with the remaining budget, or, when resuming, with that or the grace, whichever is shorter, and a warning |
| StopDaemon.ConfirmSilence | tools/daemon/stop-client.js:700-712 | health must fall silent within the remaining budget |
| StopDaemon.MarkAlreadyExited | tools/daemon/stop-client.js:324-333 | the stopped marker of an app that exited by itself |
| StopDaemon.WaitForProcessExit | tools/daemon/stop-client.js:335-352 | the answer is exactly whether a probe at the start or before the deadline found the process gone |
| StopDaemon.WaitForHealthNonresponse | tools/daemon/stop-client.js:415-441 | silent exactly when the last answer is none, after only 200s before it, within the timeout and one interval |
| StopDaemon.Budget | tools/daemon/stop-client.js:92-110 | something is left exactly before the deadline, and then a wait of that length ends at the deadline |
| Readiness.WaitForReadiness | tools/daemon/readiness.js:94-129 | ready at the first answer that is a 200 with the recorded pid and the attempt or the generation, and at no other; otherwise the identity is blamed exactly when some answer was a 200 |
| Readiness.HonestAnswerIdentifiesApp | tools/daemon/readiness.js:31-50 | in every run an honest answer is accepted exactly when it is a 200 of the recorded app |
| StateLock.MutualExclusion | tools/daemon/state-store.js:328-372 | with no lock older than LOCK_STALE_MS, at most one process is inside the critical section |
| StateLock.NoLostUpdate | tools/daemon/state-store.js:374-410 | the file history is the sequential application of the updaters that renamed |
| UpdateSessions.AcceptedUpdateLands | tools/daemon/state-store.js:392-408 | in every run with no lock too old: when an update call is back and nothing threw, it has read the record, and the log has gained exactly its update over what it read, which was the whole file then, if the updater made a valid record of it, and nothing otherwise; a call in which something threw added nothing |
| UpdateSessions.LoneCallReturns | tools/daemon/state-store.js:328-408 | from any state with the lock free, an update call that is left alone returns within nine file operations, with the accepted update in the file and the lock free |
| StateLock.ReadersSeeWholeStates | tools/daemon/state-store.js:374-386 | in every run, with slow holders and stolen locks too, an unlocked reader finds no file or a whole, validated record |
| StateLock.RunKeepsInv | tools/daemon/state-store.js:328-372 | what a process has read or written aside still matches the file while it holds the lock |
| LockedUpdates.LogIsHistory | tools/daemon/state-store.js:388-410 | the file operations of a run of the five updates, with no lock too old, amount to a sequence of single writes, each an update accepted on what the write before it left; it is a chain of the Lifecycle model exactly when every write meets that model's fences |
| StateLock.StaleLockIsStolen | tools/daemon/state-store.js:341-345 | from any state with an over-age lock whose holder is inside, every process that is not in an update gets inside as well |
| StateLock.SlowHolderBreaksExclusion | tools/daemon/state-store.js:341-345 | a concrete run with a slow holder puts two processes inside |
| Launcher.Host.StartDaemon | tools/daemon/launcher.js:567-693 | already running exactly for a running record of a daemon whose two processes run, whose app answers as that, and which need not be fresh or different; exit 3 exactly for a live record that cannot be told; exit 2 exactly for one that serves but must be fresh or differs, or for a record out of use with its port taken; all these leave everything alone, any other record out of use is overwritten; a start succeeds exactly when its app was answered to be ready; a failed one leaves none of its processes and a fatal record of its attempt with the reason; a successful one recorded its two processes with the generation the app was given; no other process is killed |
| Launcher.Host.SpawnAndWait | tools/daemon/launcher.js:631-693 | success exactly on a ready answer; on every failing path of the try block and its handler the children are killed and the reason is recorded |
| Launcher.Host.CleanupAttempt | tools/daemon/launcher.js:451-455 | exactly the given pids are killed |
| Launcher.VerdictMeans | tools/daemon/launcher.js:491-556 | the verdict is active, unverified or replaceable exactly when the record serves, cannot be told, or is out of use, over its status, the two processes and the probe |
| Launcher.RunningAppLosesRecord | tools/daemon/launcher.js:491-556 | the record of a running app is replaceable exactly when it is not live, when the probe finds another identity, or when it is running and its sentinel is gone |
| Launcher.RunningSentinelLosesRecord | tools/daemon/launcher.js:500-534 | the record of a sentinel that runs without its app is replaceable exactly when it is not live or is running |
| Launcher.CrashedSentinelExposesApp | tools/daemon/sentinel.js:624-641 | from every start, a throw in the first tick leads to a fatal record, or if that write throws to a running one, whose app lives without a sentinel and which is replaceable |
| Launcher.RunningRecordStartsLifecycle | tools/daemon/launcher.js:655-656 | the starting and the running record of a start, field by field, with the generation after the previous one; the running one is valid and one from which the step system starts |
| Launcher.LateFatalWriteIsAllowed | tools/daemon/launcher.js:666-675 | the fatal write after a failed readiness wait is a legal write exactly while the file is what the launcher wrote, fatal fields, exit code and time aside |
| Launcher.HandlerWriteIsNeverAllowed | tools/daemon/launcher.js:682-692 | the handler's fatal write, made from the starting record, is no legal write over any live record |
| Launcher.LateFatalWriteOrphans | tools/daemon/launcher.js:666-675 | a late fatal write over a committed restart names the old app, kills only the old pids and is no legal write |
| Launcher.LateFatalWriteUndoesStop | tools/daemon/launcher.js:666-675 | a late fatal write over a completed stop is no legal write |
| Crc32.CrcTable.Crc32 | tools/daemon/icon-assets.js:27-34 | the table loop computes the bit-at-a-time checksum of every buffer |
| Crc32.CrcTable.GetCrcTable | tools/daemon/icon-assets.js:11-25 | the cached table holds eight division steps of every byte and is built once |
| Crc32.TableEntry | tools/daemon/icon-assets.js:17-23 | the inner loop performs eight division steps |
| Crc32.PolynomialIsTheConstant | tools/daemon/icon-assets.js:20 | the generator of RFC 2083, section 3.4, as a reflected word is 0xedb88320 |
| Crc32.BurstsAreDetected | tools/daemon/icon-assets.js:27-34 | messages that differ only within 32 neighbouring bits have different checksums |
| Crc32.FourBytesAreDetected | tools/daemon/icon-assets.js:27-34 | messages that differ only within four neighbouring bytes have different checksums |
| ShiftRegister.ByteStep | tools/daemon/icon-assets.js:30-32 | one table lookup and one shift process the eight bits of a byte, for any generator |
| ShiftRegister.EightSteps | tools/daemon/icon-assets.js:17-23 | eight division steps are a lookup of the low byte plus the shifted rest |
| ShiftRegister.StepsAreLinear | tools/daemon/icon-assets.js:20 | division steps are linear over xor |
| ShiftRegister.ShiftBitsAreSteps | tools/daemon/icon-assets.js:30-32 | up to a word of data bits may be added in ahead of the division steps |
| ShiftRegister.BurstsChangeTheRegister | tools/daemon/icon-assets.js:27-34 | with a generator whose constant term is one, strings that differ within 32 bits lead to different registers |
| IconContainers.PngChunk | tools/daemon/icon-assets.js:36-44 | a chunk is length, type, data and the CRC of type and data, and fails exactly when the length does not fit |
| IconContainers.PngRoundTrip | tools/daemon/icon-assets.js:160-165 | any list of chunks reads back as that list, with every CRC matching |
| IconContainers.DamagedChunkIsRefused | tools/daemon/icon-assets.js:36-44 | a chunk damaged within four neighbouring data bytes is refused by the reader |
| IconContainers.WrittenChunkConforms | tools/daemon/icon-assets.js:36-44 | what is written is a chunk of RFC 2083, section 3.2, exactly when the data is shorter than 2^31 bytes, the stored type is four letters, and the CRC over the given type is that over the stored one |
| IconContainers.FourByteTypeConforms | tools/daemon/icon-assets.js:36-44 | for a type of four bytes exactly when the data is shorter than 2^31 bytes and the type is letters; never for a shorter type |
| IconContainers.LongChunkIsNoPngChunk | tools/daemon/icon-assets.js:38-39 | any 2^31 bytes of data are accepted and make no conforming chunk; without their first byte they do |
| IconContainers.CreateIcnsChunk | tools/daemon/icon-assets.js:190-200 | the element bytes, or an error exactly for an invalid type or a size that does not fit |
| IconContainers.CreateIcnsFromPngs | tools/daemon/icon-assets.js:202-211 | the file bytes, or the error of the first entry that cannot be encoded |
| IconContainers.IcnsRoundTrip | tools/daemon/icon-assets.js:202-211 | walking the file by its length fields recovers exactly the entries |
| IconContainers.IcnsEndsAtTotal | tools/daemon/icon-assets.js:207-210 | the header's total is the length of the file |
| IconContainers.IcnsHeaderBytes | tools/daemon/icon-assets.js:207-209 | the file begins with the bytes 105, 99, 110, 115 and its length, most significant byte first |
| IconContainers.IcnsChunkBytes | tools/daemon/icon-assets.js:190-200 | a chunk is the characters of its type, its own whole length, most significant byte first, and its data |
| IconContainers.CreateIcoFromPng | tools/daemon/icon-assets.js:168-188 | the icon bytes, or an error exactly when the size does not fit |
| IconContainers.IcoRoundTrip | tools/daemon/icon-assets.js:168-188 | offset and length of the entry delimit exactly the PNG, up to the end of the file |
| IconContainers.IcoBytes | tools/daemon/icon-assets.js:174-185 | header and directory entry byte by byte, the size least significant byte first, and the image at byte 22 |
| ByteFields.FieldRoundTrip | tools/daemon/icon-assets.js:39 | 32-bit fields in both byte orders read back what was written, at any offset |
| ByteFields.MostSignificantFirst | tools/daemon/icon-assets.js:39 | four bytes are the big-endian field of a number, and read as it, exactly when they are its digits to the base 256, most significant first |
| ByteFields.LeastSignificantFirst | tools/daemon/icon-assets.js:174-184 | the same of the little-endian fields of two and four bytes, least significant first |
| ByteFields.Copy | tools/daemon/icon-assets.js:40-41 | copying into a buffer overlays what fits and leaves the rest |
| ByteFields.WriteU32BE | tools/daemon/icon-assets.js:39 | the field is written, or refused exactly when the number does not fit |
| ByteFields.WriteU32LE | tools/daemon/icon-assets.js:183-184 | the field is written, or refused exactly when the number does not fit |
| Subscriptions.SubscriptionAgreement | frontend/src/contexts/WebSocketContext.tsx:1151-1175 | in every run the active sessions are the disjoint union of handled and pending ones, replaying an open socket's messages gives exactly them without a duplicate, and nothing that a session received since its last fresh start (the socket's opening, or the end of its unsubscribe timer) is lost or reordered |
| Subscriptions.SessionsAreServed | frontend/src/contexts/WebSocketContext.tsx:1450-1507 | in every run, from its events alone: the socket's state, each session's handler and timer, that it is subscribed exactly with one of them, and that its handlers were handed everything that arrived for it, up to what waits for the next one |
| Subscriptions.OnlyFreshStartsDrop | frontend/src/contexts/WebSocketContext.tsx:1151-1162 | a fresh start drops exactly the messages that wait in the grace buffer, the end of what arrived, and only a session without a handler can have any; no other event takes anything back |
| Subscriptions.RemountIsSilent | frontend/src/contexts/WebSocketContext.tsx:1461-1470 | a session unmounted and mounted again within the grace period causes no message about it, whatever else happens |
| Subscriptions.KeptMessages | frontend/src/contexts/WebSocketContext.tsx:1020-1036 | every message of an active session counts as received, except repair answers without a handler; no other message does |
| Subscriptions.StepKeeps | frontend/src/contexts/WebSocketContext.tsx:1450-1507 | every event keeps partition, timers, agreement and conservation |
| WebSocketProvider.Provider.SubscribeSession | frontend/src/contexts/WebSocketContext.tsx:1450-1470 | takes the session over: timer cleared, grace buffer handed over, subscribed only if it was not active |
| WebSocketProvider.Provider.CleanUp | frontend/src/contexts/WebSocketContext.tsx:1476-1506 | only the current handler's cleanup arms the unsubscribe timer |
| WebSocketProvider.Provider.OnTimer | frontend/src/contexts/WebSocketContext.tsx:1483-1502 | the timer unsubscribes a session that has no handler again |
| WebSocketProvider.Provider.OnOpen | frontend/src/contexts/WebSocketContext.tsx:1151-1175 | an open socket drops the grace buffers and subscribes all active sessions at once; a replaced socket changes nothing |
| WebSocketProvider.Provider.OnClose | frontend/src/contexts/WebSocketContext.tsx:1186-1200 | only the current socket's close forgets the connection |
| WebSocketProvider.Provider.OnMessage | frontend/src/contexts/WebSocketContext.tsx:1020-1036 | a message goes to the handler, into the grace buffer of a pending session, or nowhere |
| WebSocketProvider.Provider.FlushGraceBuffer | frontend/src/contexts/WebSocketContext.tsx:401-410 | the buffered messages are handed over in order and forgotten |
| Divergence.RecordIsComplete | tools/wave3/terminal-resource-consumer-manifest-reseal.ts:208-256 | all four axes are empty or zero exactly when inventories and classifications are equal as multisets |
| Divergence.RecordIsDetermined | tools/wave3/terminal-resource-consumer-manifest-reseal.ts:208-256 | inventories that hold the same entries give the same record, in whatever order entries, maps and sets are walked, if the texts sorted by tell its relocations apart |
| Divergence.RelocationsSurvive | tools/wave3/terminal-resource-consumer-manifest-reseal.ts:217-229 | the relocations are those of exactly the decisions that occur in both inventories at different places, one for each, with its title, what it lost and what it gained |
| Divergence.DescribeDivergence | tools/wave3/terminal-resource-consumer-manifest-reseal.ts:208-256 | the record holds both drifts, every moved decision once with its drift, in the order of their texts, and the hash count of every current place |
| Divergence.DescribeRelocations | tools/wave3/terminal-resource-consumer-manifest-reseal.ts:217-229 | exactly the surviving decisions whose locators changed are listed, once each |
| Divergence.CountHashOnly | tools/wave3/terminal-resource-consumer-manifest-reseal.ts:233-248 | the sum over the current places of the positions at which sorted hashes differ |
| Divergence.GroupHashes | tools/wave3/terminal-resource-consumer-manifest-reseal.ts:233-240 | every place maps to its hashes in inventory order |
| Divergence.MultisetDrift | tools/wave3/terminal-resource-consumer-manifest-reseal.ts:157-173 | retired and introduced are the multiset differences both ways, sorted |
| Divergence.Excess | tools/wave3/terminal-resource-consumer-manifest-reseal.ts:166-171 | every identity as often as one count exceeds the other, in any map order |
| Divergence.CountBy | tools/wave3/terminal-resource-consumer-manifest-reseal.ts:143-150 | the map counts exactly the keys that occur |
| Divergence.MismatchesCoverChanges | tools/wave3/terminal-resource-consumer-manifest-reseal.ts:243-248 | of two lists of one length the positional count is never below the number of changed hashes, and equal to it exactly when for every hash one side's positions include the other's |
| Divergence.CountCoversChanges | tools/wave3/terminal-resource-consumer-manifest-reseal.ts:242-248 | the count of a record is never below the number of changed tuples at places with as many entries as before, and equal to it exactly when every such place is nested |
| Divergence.AllChangesCompared | tools/wave3/terminal-resource-consumer-manifest-reseal.ts:246 | these are all changed tuples exactly when every other place only lost entries |
| Divergence.NeverFewer | tools/wave3/terminal-resource-consumer-manifest-reseal.ts:242-248 | in that case the count is never below the number of changed tuples, and equal to it exactly when nested |
| Divergence.SkippedPlace | tools/wave3/terminal-resource-consumer-manifest-reseal.ts:246 | a place whose number of entries differs adds nothing to the count, although entries of it are new |
| Divergence.OneChangeCountedThreeTimes | tools/wave3/terminal-resource-consumer-manifest-reseal.ts:243-248 | one changed hash of three can be counted three times |
| Sorting.SameSortedForm | tools/wave3/terminal-resource-consumer-manifest-reseal.ts:258-281 | sorted identity lists are equal exactly when the lists are equal as multisets |
| LineEndings.AnalyzeText | frontend/src/editor/lineEndings.ts:34-63 | BOM and body make up the text, and the ending is the most frequent one with ties CRLF, LF, CR |
| LineEndings.CountBreaks | frontend/src/editor/lineEndings.ts:38-53 | the scan counts exactly the positions at which each kind of break starts |
| LineEndings.EndingIsMostFrequent | frontend/src/editor/lineEndings.ts:55-60 | there is one such ending, no kind is more frequent, and it occurs if any break does |
| LineEndings.BreaksByPosition | frontend/src/editor/lineEndings.ts:41-53 | counting by position agrees with the list of breaks read left to right |
| LineEndings.OpenAndSave | frontend/src/editor/lineEndings.ts:73-75 | opening any text and saving it unchanged writes back the same text |
| LineEndings.NormalizeKeepsLines | frontend/src/editor/lineEndings.ts:98-99 | normalising makes every break the file's own, break for break, and leaves the lines alone |
| LineEndings.FilterTransaction | frontend/src/editor/lineEndings.ts:90-114 | every change keeps its range and inserts its normalised text |
| LineEndings.EditTouchesOnlyItsRanges | frontend/src/editor/lineEndings.ts:90-114 | after any transaction the bytes between the changed ranges are the old ones |
| LineEndings.OneEdit | frontend/src/editor/lineEndings.ts:90-117 | one edit changes only the edited range, and its inserted breaks are all the file's own |
| LineEndings.JoinedBreaks | frontend/src/editor/lineEndings.ts:41-53 | joined texts keep their breaks unless a carriage return meets a line feed, which makes one break of two |
| LineEndings.OneEditKeepsBreaks | frontend/src/editor/lineEndings.ts:90-117 | after one edit the saved breaks are those of the three parts exactly when no carriage return meets a line feed at an end of the inserted text |
| LineEndings.TransactionKeepsBreaks | frontend/src/editor/lineEndings.ts:90-117 | after any transaction the saved breaks are those of its kept and inserted texts exactly when no carriage return meets a line feed at an end of a changed range |
| LineEndings.SeamCanMerge | frontend/src/editor/lineEndings.ts:90-117 | a break typed behind a stray carriage return can merge with it |
| LogRotation.KeptIsSuffix | tools/daemon/log.js:65-95 | after any appends and rotations, failing anywhere, the generations hold the last bytes written, in order |
| LogRotation.RotationDropsOldest | tools/daemon/log.js:77-88 | however far a rotation gets, it drops at most the oldest generation |
| LogRotation.TotalIsBounded | tools/daemon/log.js:65-95 | without failures at most (keep + 1) * (maxBytes + longest message - 1) bytes are kept |
| LogRotation.BoundIsAttained | tools/daemon/log.js:65-95 | for every limit, number of generations and longest message some history keeps exactly that much |
| LogRotation.DocumentedTotalIsMet | tools/daemon/log.js:48-54 | the documented total of maxBytes * (keep + 1) holds of all histories with messages up to some length exactly when that length is at most one byte |
| LogRotation.DocumentedTotalIsExceeded | tools/daemon/log.js:48-54 | for every longer message, every limit and every number of generations a history exceeds the documented total |
| LogRotation.LogDirectory.RotateLogIfOversized | tools/daemon/log.js:65-89 | performs a prefix of the rotation's operations, all of them exactly when it reports a rotation |
| LogRotation.LogDirectory.AppendLog | tools/daemon/log.js:91-95 | rotates if oversized, then appends the message or a part of it |
| LogRotation.Shifted | tools/daemon/log.js:78-84 | after k operations the generations above the gap are moved up by one and none was overwritten |
| EditorRestore.OneDocumentPerPath | frontend/src/hooks/useEditorWindows.ts:1113-1123 | as long as every store read names each path once, no path ever has two documents |
| EditorStory.PageIsAsTold | frontend/src/hooks/useEditorWindows.ts:537-1124 | in every run from an empty page, the open and the closed paths, the paths each workspace waits for, and the reads, opens and steps in flight are exactly those its events tell, as sets |
| EditorRestore.LandingKeepsDistinct | frontend/src/hooks/editorRestoreAdmission.ts:31-40 | a landing batch keeps one document per path exactly when what it admits has different paths |
| EditorRestore.RecordsAreRewritten | frontend/src/hooks/useEditorWindows.ts:1168-1184 | every save rewrites each record its workspace read until the path is opened, unless an image step dropped it |
| EditorRestore.HistoryIsHonest | frontend/src/hooks/useEditorWindows.ts:754-778 | a path counts as opened only once it is open, and as dropped exactly when an image step lands on it with neither path open |
| EditorRestore.StepDropsRecord | frontend/src/hooks/useEditorWindows.ts:754-778 | in every run a landing image step loses a pending record exactly when neither of its paths is open any more |
| EditorRestore.StepLosesRecord | frontend/src/hooks/useEditorWindows.ts:754-778 | a run from an empty page in which a record that every save carried is named by none any more, though its path was never shown |
| EditorRestore.SavedIsDistinct | frontend/src/hooks/useEditorWindows.ts:1168-1184 | what a save writes names every path once |
| EditorRestore.GoneStaysGone | frontend/src/hooks/useEditorWindows.ts:930-938 | a closed path to which nothing in flight is heading stays closed until the user asks for it again, whatever lands meanwhile |
| EditorRestore.CloseIsFinal | frontend/src/hooks/useEditorWindows.ts:592-605 | in every run, a close keeps its path closed, however the run goes on without asking for it, exactly when no open and no image step to it was in flight |
| EditorRestore.ClosedImageComesBack | frontend/src/hooks/useEditorWindows.ts:740-772 | a run in which an image step asked for before a close reopens the closed path |
| EditorRestore.SecondReadReopens | frontend/src/hooks/useEditorWindows.ts:592-605 | a run in which the second of two reads of a path reopens it after it was closed |
| EditorRestore.OpenInFlightReopens | frontend/src/hooks/useEditorWindows.ts:548-563 | a landing open shows its path and forgets that it was closed |
| EditorRestore.StepInFlightReopens | frontend/src/hooks/useEditorWindows.ts:769-772 | a landing step shows its path, if the tab it came from is there, without looking at the closed paths |
| EditorRestore.TwoRecordsTwoDocuments | frontend/src/hooks/useEditorWindows.ts:1070-1123 | a store that names a path twice opens it twice |
| EditorRestore.StoredTwiceOpensTwice | frontend/src/hooks/useEditorWindows.ts:1070-1123 | a run from an empty page in which it does |
| EditorWindows.Hook.ForgetPendingRestore | frontend/src/hooks/useEditorWindows.ts:460-465 | the path leaves every workspace's pending list |
| EditorWindows.Hook.StartOpenWindow | frontend/src/hooks/useEditorWindows.ts:592-602 | a read is in flight exactly if the tab has a session, otherwise an error is shown |
| EditorWindows.Hook.FinishOpenWindow | frontend/src/hooks/useEditorWindows.ts:602-613 | the three answers: shown, asked about, or an error, and only the first changes the documents |
| EditorWindows.Hook.StartCreate | frontend/src/hooks/useEditorWindows.ts:621-637 | the question is answered once, and its write is in flight exactly if the tab has a session |
| EditorWindows.Hook.AddWindow | frontend/src/hooks/useEditorWindows.ts:537-563 | the document is added unless open, its pending record and earlier close forgotten |
| EditorWindows.Hook.CloseDocuments | frontend/src/hooks/useEditorWindows.ts:966-972 | the paths are closed and remembered as closed |
| EditorWindows.Hook.StartRestore | frontend/src/hooks/useEditorWindows.ts:1048-1062 | the records are held before the first read, once per workspace |
| EditorWindows.Hook.FinishRestore | frontend/src/hooks/useEditorWindows.ts:1070-1124 | the loaded documents that are neither open nor closed are added and leave the pending lists |
| EditorWindows.Hook.FinishImageStep | frontend/src/hooks/useEditorWindows.ts:763-772 | the tab shows the new path in place, if it is still there and the path is not open |
| EditorWindows.Hook.RecordsToSave | frontend/src/hooks/useEditorWindows.ts:1168-1184 | every document of the workspace and the path of every pending record is saved, nothing else is, and each path once if documents and pending records name it once |
| AssetSwap.Disk.StageFrontendAssets | tools/start-runtime.js:387-434 | result and target are those that follow from the operations that fail and the target that was there; the old build or the new one is complete in place at every step; a normal return has the copied tree in place and nothing else |
| AssetSwap.StagedExactly | tools/start-runtime.js:387-434 | an attempt succeeds exactly with a complete source on safe paths, a complete copy and no operation on its way throwing; whatever stops it before, or at the installation with the way back working, leaves the target as it was |
| AssetSwap.ThrowKeepsTarget | tools/start-runtime.js:416-432 | a throw leaves the target as it was exactly unless the way back failed, or another build was installed and a removal after that failed |
| AssetSwap.ThrowsThatChangeTheTarget | tools/start-runtime.js:416-432 | for any complete build, two sets of failing operations with which a throw leaves the new build, and none |
| AssetSwap.Disk.Swap | tools/start-runtime.js:416-427 | both renames and the way back, each with its failure, and the old build in target or backup throughout |
| AssetSwap.Disk.Prepare | tools/start-runtime.js:407-414 | nothing before the swap touches the target, and the swap is reached exactly without a failure and with a complete copy |

## Left out

- Process inspection is an oracle for "alive and ours": PowerShell, netstat and procfs parsing, command-line checks
  and signal delivery are not part of this model. Pids are never reused, and a kill takes effect; a kill that throws
  (EPERM) is not modelled. A spawn that throws has created no process.
- The state file is always readable in the Lifecycle model; the lock is one step there and taken apart in StateLock. A
  lock file whose stamping write throws, and a process that dies while it holds the lock, are not modelled.
- Lifecycle runs begin when the launcher has finished; the interleaving before that is shown in Launcher only.
- StopDaemon.StopDaemon: does not throw, because its loops take every answer as a value; the automaton it follows, and
  all theorems about runs, include a throw at every step.
- SentinelTick.MarkFatalState: leaves the last exit code of a fatal record empty, because no decision reads it.
- SentinelTick.RunSentinelTick: says nothing about a sentinel that is terminated in mid-tick, because that process
  runs no more code; LifecycleTheorems.NoOrphanEver covers that moment.
- Paths, tokens and the fields of the record that no writer changes are one text; timestamps are milliseconds on one
  monotone clock that advances in sleeps, waits and requests.
- Environment assembly, Windows Start-Process and foreground signal forwarding of the launcher.
- Logo rendering and deflate: the image data of a PNG is any byte list. Buffers have no size limit of their own.
- Checkpoints, responder hand-off, binary frames, back-pressure, the resubscribe fence and the unmounting of the
  provider. The grace buffer is a plain queue, without the coalescing of repeated messages.
- Identity texts of the divergence record are integers, so two entries share an identity exactly when all the encoded
  fields agree, and the text collation is a total order that tells different texts apart. SHA-256 and JSON are not
  modelled.
- CodeMirror beyond "a document is its lines, read and joined with one separator": selections, effects and clipboard
  events. Text is a sequence of Unicode characters without lone surrogates.
- React rendering, window shells, placement and geometry of the editor; a document is opened while some workspace is
  active; load failures of a restore are a flag per record; a save always reaches the store.
- Secret masking of log lines, and every check of asset paths and links beyond "passes or throws".
- AssetSwap.Disk.CopyToStaging: leaves in the staging directory the tree that the attempt names, which is the source
  when nobody writes to that during the copy and may be any tree otherwise.
