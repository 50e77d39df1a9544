# Verified model of the DobbyVPN core

The Go core of DobbyVPN keeps a long-lived network owner with short-lived
protocol attempts inside it. Most of its code decides who still owns what while
goroutines race, calls fail and cleanup is retried. This project models that
code in Dafny and proves what it keeps. `dafny verify dfyconfig.toml` checks
everything.

Two forms appear side by side. Objects whose methods assign fields under a mutex
are classes whose methods are proved to have exactly the effect of a
specification function. Interleavings are transition systems over those
functions: one event is one critical section or the return of one external call,
events carry every outcome the environment may choose, and the theorems hold for
every sequence of events.

| component | modules |
|---|---|
| session manager | `SessionRecord` (critical sections as functions), `SessionManager` (the object), `SessionWorld` (workers, ledgers, calls in flight), `SessionInvariant`, `SessionTheorems`, `SessionStops` (which Stops are owed), `SessionAttempts` (candidates in order), `SessionAnswers` (what each call brings about), `SessionCalls` |
| log migration | `MigrationCopy` (bounded streaming refines record copying), `MigrationHistory` (what the generations hold, fixpoint), `MigrationMarkers` (where marker lines go, and the fixpoint with them), `MigrationInputs` (what becomes of each input file), `MigrationTransaction` (staged, marker-committed, crash-recoverable), `MigrationSchedule` (any interleaving of migrations is a serial one), `LogWriter` (rotation) |
| sockets and flows | `DrainedOwner` (the specification), `FlowOwner`, `FlowWorld`, `FlowInvariant`, `FlowTheorems`, `FlowService` (that it serves, and cleanup ends), `EngineOwnership`, `EngineService`, `SwitchingProxy`, `TransportSockets`, `OutlineDevice`, `StreamScope`, `UdpAssociation` |
| teardown and recovery | `Teardown` (leases, ledgers, attempt start), `NetworkGuard` (filter engine, permissions, attempt scope), `LinuxNetwork` (policy routing) |
| log follower | `LogFollower` |

Where the code does something its surroundings may not expect, it is stated as a
theorem or a witness:

- A labelled migration can leave a generation that the oversize check would
  migrate again (`MigrationMarkers.LabelledMigrationMayNotSettle`): exactly if a
  marker line ends at or beyond the limit
  (`MigrationMarkers.LabelledMigrationSettles`). An unlabelled one never does.
- A marker line can continue an unterminated record
  (`MigrationMarkers.SeparatorCanBeMissing`): exactly if an empty stream lies
  between them, which gets no marker line but uses up the separating newline
  (`MigrationMarkers.MarkersStartLines`).
- A second `handoff` after a cancellation marks a handed-off scope aborted as well
  (`StreamScope.RepeatedHandoffMarksBoth`), and nothing else does
  (`StreamScope.OneOutcome`). Both callers call it once.
- A protocol attempt that fails in startup with an unfinished cleanup as its own
  cause keeps the runtime reserved even if everything was released and nobody
  holds a lease (`Teardown.Runtime.Start`, `Teardown.ReservedWithoutLease`).
- The boundary of a cleared view is saved under file numbers and outlives the
  files. A log file that gets such a number is not shown from its beginning
  (`LogFollower.ReusedNumberHides`), although the comment in
  core/cmd/dobbyvpn/logs.go calls the identities stable. When exactly a poll shows
  everything is part of `LogFollower.PollsCatchUp`.
- A log file created and unlinked by three rotations between two polls is never
  shown (`LogFollower.ThirdRotationLoses`); up to two rotations lose nothing. A
  capture that finds no current file counts as one rotation, and before the first
  capture none is free.
- A forced migration that finds no file at all commits a marker without a
  generation, which validation then refuses on every run
  (`MigrationTransaction.CommittedFinishes` states exactly when). The only forced
  caller checks first that a file is oversized.

## Model

| member | source | states |
|---|---|---|
| `SessionInvariant.StepInv` | core/sessionapi/api.go:512-1090 | every event of any interleaving of calls, worker steps and platform outcomes keeps the session invariant: one worker per active state, ledgers ordered and accounted for, fences, budget, inventory; no nil dereference |
| `SessionTheorems.OneWorker` | core/sessionapi/api.go:850-917 | in every reachable state exactly one worker exists when the state is PROBING, PREPARING, CONNECTED or STOPPING, none otherwise, and it runs the current generation |
| `SessionTheorems.FinishAlwaysProceeds` | core/sessionapi/api.go:988-1000 | a worker that reaches finish never leaves early with resources still held |
| `SessionTheorems.AttemptsNeverOverlap` | core/sessionapi/api.go:850-917 | Runtime.Start is only called while the attempt ledger is empty: no candidate starts over another one's resources |
| `SessionTheorems.ProtectionContinuity` | core/sessionapi/api.go:807-847 | once the VPN is active, until a Stop or StopAndWait is accepted, neither the flag, the network generation nor any network closer changes, whatever fails, recovers, switches, retries or is configured |
| `SessionTheorems.StopFence` | core/sessionapi/api.go:919-931 | after an accepted Stop no generation begins and no Runtime.Start is issued until a fresh Start, Retry or switch is accepted |
| `SessionTheorems.StopRaisesFence` | core/sessionapi/api.go:659-721 | every accepted Stop or StopAndWait raises that fence |
| `SessionTheorems.CloseFence` | core/sessionapi/shutdown.go:58-104 | after StopAndWait the same holds until Resume, even against a Start |
| `SessionTheorems.ResumeNeedsCleanup` | core/sessionapi/shutdown.go:108-121 | Resume lifts the closing fence exactly when everything has been released |
| `SessionTheorems.TruthfulCleanup` | core/sessionapi/api.go:988-1048 | cleanupDone implies no ledger, no active VPN, no worker, and every closer ever acquired released exactly once; cleanupFailed implies something is retained |
| `SessionTheorems.StopRetriesCleanup` | core/sessionapi/api.go:633-635 | a Stop of the current generation after a failed cleanup starts cleanup again with exactly the retained closers |
| `SessionTheorems.TeardownOrder` | core/sessionapi/api.go:1064-1076 | one step releases at most one closer, the latest acquired of all still held: attempt before network, last before first |
| `SessionTheorems.BoundedRecovery` | core/sessionapi/api.go:770-794 | between two renewals of the budget (user Start, Retry, switch, or a connection stable for five minutes) at most three attempts start automatically |
| `SessionTheorems.SwitchExcludesRestart` | core/sessionapi/api.go:1034-1046 | a queued switch and a queued health restart are never both set, and either needs an active VPN and no stop request |
| `SessionTheorems.StartsUseCommittedProfiles` | core/sessionapi/api.go:850-917 | every Runtime.Start ever called used the profile at an in-range position of an inventory some Configure committed, under its digest |
| `SessionTheorems.ActiveSelectionFits` | core/sessionapi/api.go:591-631 | the running and the queued selection were validated against the inventory they use, whatever is configured meanwhile |
| `SessionTheorems.SupersededConfigureNeverCommits` | core/sessionapi/api.go:495-506 | of overlapping Configures only the most recently admitted one can commit |
| `SessionTheorems.Settles` | core/sessionapi/api.go:988-1048 | whatever else its steps bring, if closers succeed from now on the worker of a stopped session settles, within a number of steps given by where it is and how many closers are held |
| `SessionTheorems.NeverStuck` | core/sessionapi/api.go:659-721 | from every reachable state a Stop, its steps, one more Stop and its steps release everything ever acquired, for every schedule of steps in which closers succeed from the first Stop on |
| `SessionStops.StopIffOwed` | core/sessionapi/api.go:633-640 | over every run: Stop is accepted exactly for the current generation, the one an unsettled Start answered until its attempt connects or ends, the one a queued or unfinished switch replaced, and the one whose failed connection is being recovered; accepted it raises the fence and ends the connection or starts cleanup, otherwise it changes nothing. All four are told from the run, not from the session's fields |
| `SessionStops.AnsweredStartCanBeStopped` | core/sessionapi/api.go:637-640 | the generation that Start answered can be stopped at every later moment until its attempt connects, settles or another is launched, whichever candidate is running by then |
| `SessionStops.AnsweredSwitchCanBeStopped` | core/sessionapi/api.go:617-631 | so can the generation that a switch replaces, until the switch is over |
| `SessionStops.FailedConnectionCanBeStopped` | core/sessionapi/api.go:770-794 | so can the generation whose connection failed, until its recovery is over |
| `SessionAttempts.CandidatesInOrder` | core/sessionapi/api.go:863-880 | the calls of one attempt are the first positions of its selection, in order and under its digest, none left out |
| `SessionAttempts.GivesUpForAReason` | core/sessionapi/api.go:887-916 | an attempt that has reached finish and was not stopped tried its whole selection with only failures, or met a failed network, an unclean release or an empty lease |
| `SessionAttempts.OkCallConnects` | core/sessionapi/api.go:887-909 | a call that returns a lease without error, not stopped, leads to CONNECTED in its own generation |
| `SessionAttempts.AttemptsConclude` | core/sessionapi/api.go:850-917 | whatever the steps bring, within a number of steps given by the state an attempt is connected, gone or succeeded by the queued one |
| `SessionAnswers.StartLaunches` | core/sessionapi/api.go:512-615 | Start launches an attempt if and only if the sequence is current, the session configured, not closing, and either settled with a selection that fits and could be saved, or failed under protection and asked for the same again; the attempt's generation, network, profiles and worker |
| `SessionAnswers.StartSwitches` | core/sessionapi/api.go:591-631 | over every run Start queues a switch if and only if it is current, connected, asked to replace and the selection fits and was saved; the connection is then ended inside the same protection |
| `SessionAnswers.ConfigureAdmitted` | core/sessionapi/api.go:426-477 | Configure is admitted exactly if the sequence is current, its caller waits and the session takes configurations |
| `SessionAnswers.ConfigureCommitted` | core/sessionapi/api.go:426-477 | the latest admitted Configure commits what it loaded, exactly if nothing failed meanwhile; a retained attempt keeps its own profiles |
| `SessionAnswers.ResumeLifts` | core/sessionapi/shutdown.go:108-121 | Resume opens a closing session exactly if its cleanup is done |
| `SessionAnswers.StopAndWaitTakes` | core/sessionapi/shutdown.go:58-104 | StopAndWait fences, drops what was queued and, when something runs, cancels it and leaves one worker cleaning up |
| `SessionAnswers.LossRecovers` | core/sessionapi/api.go:753-794 | over every run a lost connection is restarted if and only if it is at most the third loss since the budget was renewed, counted from the run; otherwise the failure is reported, with protection kept |
| `SessionAnswers.QueuedAttemptBegins` | core/sessionapi/api.go:1034-1046 | when cleanup ends, the queued attempt begins if and only if the release succeeded and no Stop came: the switch's target and profiles, or the old ones, in the same network |
| `SessionAnswers.NothingQueued` | core/sessionapi/api.go:1024-1062 | otherwise the session is settled after a Stop, or failed with its cause and whatever protection it had |
| `SessionCalls.CallsHaveTheirOwnGeneration` | core/sessionapi/api.go:919-931 | the generations of all calls ever made increase strictly and never exceed the current one |
| `SessionCalls.ProtectionIsHeld` | core/sessionapi/api.go:807-847 | while the VPN is active and no Stop came, the network ledger holds both leases, or the one of a platform without a network runtime |
| `SessionCalls.HealthFailureEnds` | core/sessionapi/api.go:933-954 | a connection whose health failed is cancelled and brought to cleanup |
| `SessionCalls.GivenUpConnectionEnds` | core/sessionapi/api.go:933-954 | a worker waiting with a connection that was given up leaves its wait |
| `SessionCalls.HealthyConnectionStays` | core/sessionapi/api.go:933-954 | a healthy connection that nobody gave up stays |
| `SessionInvariant.ConfigureCommitEffect` | core/sessionapi/api.go:426-477 | the second critical section of Configure keeps the record invariant, leaves a running attempt alone and changes the inventory only when accepted |
| `SessionInvariant.StartEffect` | core/sessionapi/api.go:512-589 | Start, in each of its retry, switch and fresh forms, keeps the record invariant and begins an attempt only outside the closing fence with a validated selection |
| `SessionInvariant.StopEffect` | core/sessionapi/api.go:659-721 | Stop keeps the record invariant and hands a running attempt to its worker or restarts cleanup |
| `SessionInvariant.StopAndWaitEffect` | core/sessionapi/shutdown.go:58-104 | StopAndWait keeps the record invariant and raises both fences |
| `SessionInvariant.FinishEndEffect` | core/sessionapi/api.go:988-1048 | the last critical section of finish either fails with everything retained, settles, restarts what was queued inside the same network, or starts another release |
| `SessionManager.Session.AdmitConfigure` | core/sessionapi/api.go:426-477 | first critical section of Configure: the object's whole new state, outcome, launched goroutine and cancelled context are those of the specification the theorems are about |
| `SessionManager.Session.CommitConfigure` | core/sessionapi/api.go:426-477 | second critical section of Configure: the object's whole new state, outcome, launched goroutine and cancelled context are those of the specification the theorems are about |
| `SessionManager.Session.BeginAttemptLocked` | core/sessionapi/api.go:1078-1090 | a new attempt inside the retained network generation: the object's whole new state, outcome, launched goroutine and cancelled context are those of the specification the theorems are about |
| `SessionManager.Session.RetryLocked` | core/sessionapi/api.go:604-615 | retry of the active selection: the object's whole new state, outcome, launched goroutine and cancelled context are those of the specification the theorems are about |
| `SessionManager.Session.ReplaceLocked` | core/sessionapi/api.go:617-631 | queueing a switch: the object's whole new state, outcome, launched goroutine and cancelled context are those of the specification the theorems are about |
| `SessionManager.Session.StartFreshLocked` | core/sessionapi/api.go:512-589 | direct start with a new network generation: the object's whole new state, outcome, launched goroutine and cancelled context are those of the specification the theorems are about |
| `SessionManager.Session.StartLocked` | core/sessionapi/api.go:512-589 | dispatch of Start: the object's whole new state, outcome, launched goroutine and cancelled context are those of the specification the theorems are about |
| `SessionManager.Session.StopLocked` | core/sessionapi/api.go:659-721 | dispatch of Stop: the object's whole new state, outcome, launched goroutine and cancelled context are those of the specification the theorems are about |
| `SessionManager.Session.AcknowledgeStoppedLocked` | core/sessionapi/api.go:642-657 | Stop of a settled session: the object's whole new state, outcome, launched goroutine and cancelled context are those of the specification the theorems are about |
| `SessionManager.Session.ReportHealthFailureLocked` | core/sessionapi/api.go:753-768 | health failure of the connected attempt: the object's whole new state, outcome, launched goroutine and cancelled context are those of the specification the theorems are about |
| `SessionManager.Session.PrepareHealthRecoveryLocked` | core/sessionapi/api.go:770-794 | budgeted recovery or reported failure: the object's whole new state, outcome, launched goroutine and cancelled context are those of the specification the theorems are about |
| `SessionManager.Session.ActivateNetworkLocked` | core/sessionapi/api.go:807-847 | last lock of prepareNetwork: the object's whole new state, outcome, launched goroutine and cancelled context are those of the specification the theorems are about |
| `SessionManager.Session.PrepareCandidateLocked` | core/sessionapi/api.go:919-931 | next candidate generation unless stopped: the object's whole new state, outcome, launched goroutine and cancelled context are those of the specification the theorems are about |
| `SessionManager.Session.AdvanceLocked` | core/sessionapi/api.go:956-974 | state announcement fenced by generation and STOPPING: the object's whole new state, outcome, launched goroutine and cancelled context are those of the specification the theorems are about |
| `SessionManager.Session.FinishEndLocked` | core/sessionapi/api.go:988-1048 | last lock of finish: the object's whole new state, outcome, launched goroutine and cancelled context are those of the specification the theorems are about |
| `SessionManager.Session.FinishProtectedFailureLocked` | core/sessionapi/api.go:1050-1062 | failure reported with protection kept: the object's whole new state, outcome, launched goroutine and cancelled context are those of the specification the theorems are about |
| `SessionManager.Session.StopAndWaitLocked` | core/sessionapi/shutdown.go:58-104 | critical section of StopAndWait, as above |
| `SessionManager.Session.ResumeLocked` | core/sessionapi/shutdown.go:108-121 | Resume, as above |
| `SessionManager.Ledger.Release` | core/sessionapi/api.go:1227-1239 | closers run last first; those released are exactly the ones after the first failure, which stays with all below it |
| `MigrationCopy.PieceStep` | core/diagnostics/migrate.go:77-142 | copying one bounded piece and then the records of the rest equals copying whole records |
| `MigrationCopy.Stage.CopyPiece` | core/diagnostics/migrate.go:95-135 | one turn of the loop: rotation, marker line and append together are one record copy |
| `MigrationCopy.Stage.StreamMigration` | core/diagnostics/migrate.go:77-142 | for every input, limit, header and buffer size the streamed generations are those of the record-at-a-time specification |
| `MigrationCopy.Stage.StageStreams` | core/diagnostics/legacy.go:140-174 | the same for all streams in order; a marker line gets a separating newline exactly if the stream just before it ended in the middle of a record |
| `MigrationMarkers.MarkersStartLines` | core/diagnostics/legacy.go:140-174 | for all streams with marker lines: every marker line starts a line, except exactly those of a stream that follows an unterminated record and an empty stream while the generation is not full |
| `MigrationMarkers.SeparatorCanBeMissing` | core/diagnostics/legacy.go:160-166 | a history for which staging glues a marker line to a record |
| `MigrationHistory.NothingLost` | core/diagnostics/migrate.go:77-142 | with marker lines removed the generations are the inputs concatenated; every rotation falls between records; every rotated generation has at least limit bytes |
| `MigrationHistory.RetainedIsSuffix` | core/diagnostics/files.go:183-188 | the two retained generations hold a suffix of the inputs cut before a record, of at least limit bytes if anything was dropped |
| `MigrationHistory.MarkersAttribute` | core/diagnostics/legacy.go:140-174 | with marker lines every byte of every generation stands behind a marker or data of its own source |
| `MigrationHistory.HasRecordAfterLimit` | core/diagnostics/migrate.go:54-74 | the bounded scan finds a record exactly when some record ends before the last byte at or after the limit |
| `MigrationHistory.HistoryNeedsMigration` | core/diagnostics/migrate.go:26-47 | migration is needed exactly when a retained generation is not settled |
| `MigrationHistory.UnlabelledMigrationSettles` | core/diagnostics/migrate.go:12-24 | after an unlabelled migration the check reports nothing left to do |
| `MigrationMarkers.LabelledMigrationSettles` | core/diagnostics/migrate.go:54-74 | with marker lines, for all streams and limits: the check reports nothing left to do exactly if no marker line copied into a retained generation ends at or beyond the limit, decided from the lengths of headers and records |
| `MigrationMarkers.LabelledMigrationMayNotSettle` | core/diagnostics/legacy.go:153-166 | for every limit: a history and a former stream, with the marker lines the transaction writes, whose staged result would be migrated again |
| `MigrationInputs.EverythingIsStaged` | core/diagnostics/legacy.go:140-174 | the data staged by one run is the previous and the current generation, then for each source in order its previous and its current file: all bytes of each, said without the list of streams that the transaction copies |
| `MigrationInputs.EachInputIsStaged` | core/diagnostics/legacy.go:140-174 | the data behind the marker line of origin and generation of the n-th input is that file; every input that exists is introduced once |
| `MigrationInputs.RemovedWasStaged` | core/diagnostics/legacy.go:243-254 | every source file that a completed run removes was staged byte for byte behind its own marker line |
| `MigrationInputs.LegacyIsMigrated` | core/diagnostics/legacy.go:73-106 | a run over former streams publishes and removes exactly if some source file exists, and otherwise changes no input |
| `MigrationInputs.HistoryIsMigrated` | core/diagnostics/migrate.go:12-24 | a run over the history rewrites it exactly if a retained generation is oversized, and otherwise changes nothing |
| `LogWriter.Writer.WriteRecord` | core/diagnostics/files.go:131-181 | the record goes to the generation open after at most one rotation; `first` is told to the encoder exactly for a new generation; a closed writer writes nothing; the whole new log |
| `LogWriter.Writer.Open` | core/diagnostics/files.go:92-117 | a threshold that is not positive is refused; a new writer has written nothing |
| `LogWriter.WritesStayTidy` | core/diagnostics/files.go:131-188 | any run of single-line records keeps the log settled and a suffix of what was written, cut between records |
| `LogWriter.WritersRetain` | core/diagnostics/files.go:131-188 | such a log never triggers migration and retains at least the last min(total, limit) bytes |
| `MigrationTransaction.FileSystem.MigrateLegacyTransaction` | core/diagnostics/legacy.go:73-106 | wherever an operation fails or the process dies, running again ends with the files an uninterrupted run leaves; a completed run leaves exactly those; no source is removed before every committed generation is in place |
| `MigrationTransaction.FileSystem.RecoverLegacyCommit` | core/diagnostics/legacy.go:108-125 | a committed migration is finished first; only one without sources lets another begin after it; a marker of other sources is refused without effect |
| `MigrationTransaction.CommittedFinishes` | core/diagnostics/legacy.go:127-138 | finishing what was committed is what an uninterrupted run does, and the commit has its generations exactly when the migration found something to stage |
| `MigrationTransaction.FileSystem.MigrateFresh` | core/diagnostics/legacy.go:73-106 | the same for a run that finds no marker; until the commit all inputs are untouched |
| `MigrationTransaction.FileSystem.FinishLegacyCommit` | core/diagnostics/legacy.go:220-261 | publication, validation, removal of sources and marker keep the final outcome at every point; a missing generation keeps every source and the marker |
| `MigrationTransaction.FileSystem.PublishGenerations` | core/diagnostics/legacy.go:220-242 | both generations reach their names, sources untouched |
| `MigrationTransaction.FileSystem.RemoveSources` | core/diagnostics/legacy.go:243-254 | all sources and nothing else removed |
| `MigrationTransaction.FileSystem.PublishLegacyMarker` | core/diagnostics/legacy.go:197-218 | the marker appears whole or not at all |
| `MigrationTransaction.FileSystem.StageLegacyStreams` | core/diagnostics/legacy.go:140-174 | only staged files change; success leaves exactly the streamed generations |
| `MigrationTransaction.FileSystem.CopyLegacyStreams` | core/diagnostics/legacy.go:140-174 | the staged bytes are the copy specification's generations without provenance |
| `MigrationTransaction.FileSystem.CaptureFailedStartup` | core/diagnostics/stderr.go:145-179 | output of a failed startup goes to the destination before the commit, then to the staged or published current generation, and never creates a file of a committed migration |
| `MigrationTransaction.FileSystem.MigrateLegacy` | core/diagnostics/legacy.go:22-40 | the entry point for former streams |
| `MigrationTransaction.FileSystem.MigrateHistory` | core/diagnostics/migrate.go:12-24 | the entry point for oversized histories: resumes an interrupted publication, otherwise rewrites only what needs it |
| `MigrationTransaction.CrashesLoseNothing` | core/diagnostics/legacy.go:73-125 | for any sequence of interrupted runs and failed startups, the next complete run publishes what one uninterrupted run would have made of the history plus the text written before the commit, followed by the text written after it |
| `MigrationSchedule.CrashesSerialize` | core/diagnostics/legacy.go:73-125 | migrations of any kinds, each cut anywhere or completed, with failed startups in between, leave the files that whole migrations and the text leave one after the other: each text once and in order |
| `MigrationSchedule.CutStands` | core/diagnostics/legacy.go:108-125 | a migration that was cut changed nothing that counts, or has committed and stands for a whole one, also when it first finished the commit of another kind |
| `MigrationTransaction.CommittedSurvives` | core/diagnostics/legacy.go:108-125 | after the commit interrupted runs change nothing and appended text accumulates at the end |
| `MigrationTransaction.StartupTextIsCopied` | core/diagnostics/stderr.go:145-179 | text written before the commit is staged byte for byte between the existing history and the former streams |
| `MigrationTransaction.FreshIgnoresStages` | core/diagnostics/legacy.go:82-88 | files staged by a run that never committed make no difference |
| `MigrationTransaction.LegacyRunsOnce` | core/diagnostics/legacy.go:73-106 | a completed migration of former streams leaves nothing to do |
| `MigrationTransaction.HistoryRunsOnce` | core/diagnostics/migrate.go:12-24 | a rewritten history is never rewritten again |
| `DrainedOwner.DrainedStays` | core/tunnel/flow_owner.go:18-26 | the abstract owner: sealing and being drained are final, and after sealing the pending dials only become fewer |
| `DrainedOwner.ReportsStayTrue` | core/tunnel/flow_owner.go:153-181 | success reported once is true ever after |
| `FlowOwner.Flows.MakeDone` | core/tunnel/flow_owner.go:28-38 | done: the owner's whole new state, no channel closed that is nil or closed |
| `FlowOwner.Flows.Begin` | core/tunnel/flow_owner.go:40-51 | beginDial: the owner's whole new state, no channel closed that is nil or closed |
| `FlowOwner.Flows.End` | core/tunnel/flow_owner.go:80-87 | endDial: the owner's whole new state, no channel closed that is nil or closed |
| `FlowOwner.Flows.TrackConnection` | core/tunnel/flow_owner.go:89-100 | track: the owner's whole new state, no channel closed that is nil or closed |
| `FlowOwner.Flows.ReleaseConnection` | core/tunnel/flow_owner.go:102-115 | release: the owner's whole new state, no channel closed that is nil or closed |
| `FlowOwner.Flows.SealOwner` | core/tunnel/flow_owner.go:128-141 | the lock of sealAndClose: the owner's whole new state, no channel closed that is nil or closed |
| `FlowInvariant.StepInv` | core/tunnel/flow_owner.go:28-181 | every interleaving of dials, cancellations, closes, timers and cleanup keeps the owner's bookkeeping invariant |
| `FlowInvariant.HandshakeFailsInv` | core/tunnel/socks_tcp.go:46-104 | a handshake that fails or is cancelled closes its raw socket, or leaves it with the owner if that fails |
| `FlowInvariant.RetiredInv` | core/tunnel/udp_transport.go:55-83 | an origin whose generation retires before dispatch is closed by its own admission |
| `FlowTheorems.Simulates` | core/tunnel/tunnel.go:254-321 | every event of a flow owner is a step the drained-owner specification allows |
| `FlowTheorems.SuccessMeansDrained` | core/tunnel/flow_owner.go:153-181 | when wait returns success every socket any dial ever obtained is closed, and no later event opens one |
| `FlowTheorems.ChannelsCloseOnce` | core/tunnel/flow_owner.go:28-87 | neither channel is ever closed twice or before it exists |
| `FlowTheorems.PendingIsExact` | core/tunnel/flow_owner.go:40-87 | pending is the number of dials between beginDial and endDial |
| `FlowTheorems.ActiveIsExact` | core/tunnel/tunnel.go:89-110 | activeTCP is the TCP dials in flight and the tracked TCP connections whose close has not succeeded |
| `FlowTheorems.OpenIsOwned` | core/tunnel/flow_owner.go:102-115 | a socket left open by an ended dial is still owned, so another cleanup finds it |
| `FlowService.AdmittedIffOpen` | core/tunnel/flow_owner.go:40-52 | a dial is admitted if and only if the owner is open, whatever else goes on |
| `FlowService.TrackedIffOpen` | core/tunnel/flow_owner.go:89-100 | a socket is tracked if and only if the owner is open and nobody tried to close it; otherwise the dial gets it back to close |
| `FlowService.DialsServe` | core/tunnel/tunnel.go:254-321 | over an open owner a dial of each kind ends with its live socket tracked, pending as before and activeTCP one higher for TCP only |
| `FlowService.CloseReleases` | core/tunnel/tunnel.go:89-110 | a closed handle leaves the owner and the TCP count; a failed close changes neither |
| `FlowService.DialsCanEnd` | core/tunnel/tunnel.go:254-321 | from every reachable state each dial can end within a number of its own steps |
| `FlowService.WaitConcludes` | core/tunnel/flow_owner.go:153-181 | with no dial pending wait returns, and with success if and only if no connection is recorded |
| `FlowService.CleanupSucceeds` | core/tunnel/flow_owner.go:128-181 | with no dial pending a cleanup whose closes succeed reports success and leaves nothing |
| `EngineOwnership.OneAttemptHasFlows` | core/tunnel/tunnel.go:384-455 | only the attached attempt can have open sockets or pending dials |
| `EngineOwnership.AttachNeedsDrain` | core/tunnel/tunnel.go:384-425 | when Attach installs an attempt every earlier one is drained, and stays so whatever stale dialers do |
| `EngineOwnership.StaleTargetsAreRefused` | core/tunnel/tunnel.go:254-258 | a dial through a target no longer attached is refused and leaves no trace |
| `EngineOwnership.StoppedIsDrained` | core/tunnel/tunnel.go:459-523 | after a successful Stop nothing the engine carried is open and Attach is refused |
| `EngineService.AttachedAttemptServes` | core/tunnel/tunnel.go:384-425 | after Attach on an idle, unstopped engine without attempt the new attempt is the router's target and admits dials and origins of every kind, throughout any events but its Detach or a Stop |
| `EngineService.AttachRefused` | core/tunnel/tunnel.go:384-394 | Attach changes nothing if and only if the engine is busy, stopped, still holds an attempt, or the arguments are invalid |
| `EngineService.DetachMakesRoom` | core/tunnel/tunnel.go:427-455 | over every run: when the wait of a Detach ends with nothing left, the next valid Attach installs a new attempt that serves; with something left the old one stays and Attach is refused |
| `EngineService.DetachSucceeds` | core/tunnel/tunnel.go:429-455 | Detach of an attempt without pending dials whose closes succeed leaves an idle engine without attempt |
| `EngineService.StopConcludes` | core/tunnel/tunnel.go:459-523 | Stop stops the engine if and only if the platform stopped and the flows drained, and can be repeated otherwise |
| `EngineService.StopWithoutAttempt` | core/tunnel/tunnel.go:459-523 | the same without an attempt |
| `SwitchingProxy.NoLostWakeUp` | core/tunnel/switching_proxy.go:26-67 | a sleeping dial can wake whenever there is a target or the router is closed; no channel is closed twice |
| `SwitchingProxy.WaitingDialsGo` | core/tunnel/switching_proxy.go:47-67 | over every run a dial that waits, or looks, goes to the target that is set next |
| `SwitchingProxy.DialsWithoutTarget` | core/tunnel/switching_proxy.go:47-67 | without a target a dial waits on the current channel, or is refused if the router is closed |
| `SwitchingProxy.Switch.SetTarget` | core/tunnel/switching_proxy.go:26-35 | set replaces the target, closes the channel and makes another, unless closed |
| `SwitchingProxy.Switch.CloseAll` | core/tunnel/switching_proxy.go:37-45 | close clears the target and closes the current channel, once |
| `TransportSockets.Sockets.BeginDial` | core/xray/internal/transport_sockets.go:32-43 | begin: the object's fields after the call are those of the transition system |
| `TransportSockets.Sockets.EndDial` | core/xray/internal/transport_sockets.go:45-52 | end: the object's fields after the call are those of the transition system |
| `TransportSockets.Sockets.TrackSocket` | core/xray/internal/transport_sockets.go:54-64 | track: the object's fields after the call are those of the transition system |
| `TransportSockets.Sockets.RecordClose` | core/xray/internal/transport_sockets.go:114-130 | second half of a socket's Close: the object's fields after the call are those of the transition system |
| `TransportSockets.Sockets.SealAll` | core/xray/internal/transport_sockets.go:66-76 | the lock of close: the object's fields after the call are those of the transition system |
| `TransportSockets.Simulates` | core/xray/internal/transport_sockets.go:32-130 | every event is a step the drained-owner specification allows |
| `TransportSockets.SuccessMeansDrained` | core/xray/internal/transport_sockets.go:66-105 | close returns success only when every socket any dial ever obtained is closed, and none can appear later |
| `TransportSockets.PendingIsExact` | core/xray/internal/transport_sockets.go:32-52 | the settled channel is never closed twice and pending counts the dials in progress |
| `TransportSockets.OpenIsRecorded` | core/xray/internal/transport_sockets.go:114-130 | a socket whose close failed or that was handed out stays recorded |
| `TransportSockets.AdmittedIffOpen` | core/xray/internal/transport_sockets.go:32-43 | a dial is admitted if and only if closing has not begun |
| `TransportSockets.DialsServe` | core/xray/internal/transport_sockets.go:32-64 | over open sockets a dial ends with its live socket handed out and recorded, and pending as before |
| `TransportSockets.LateSocketsReturn` | core/xray/internal/transport_sockets.go:54-64 | a socket obtained after closing began is recorded and given back to be closed |
| `TransportSockets.CancelledSocketsClose` | core/xray/internal/transport_sockets.go:114-130 | a socket whose dial was cancelled is closed and forgotten when its close succeeds |
| `TransportSockets.DialsCanEnd` | core/xray/internal/transport_sockets.go:32-64 | from every reachable state each dial can end within a number of its own steps |
| `TransportSockets.CloseConcludes` | core/xray/internal/transport_sockets.go:66-105 | with no dial pending close returns, and with success if and only if nothing is recorded |
| `TransportSockets.CloseSucceeds` | core/xray/internal/transport_sockets.go:66-105 | with no dial pending a close whose sweeps succeed reports success and leaves nothing |
| `OutlineDevice.Simulates` | core/outline/ownership.go:179-303 | every event of the device is a run of steps the drained-owner specification allows |
| `OutlineDevice.SuccessMeansDrained` | core/outline/ownership.go:229-303 | when the two-phase Close succeeds every tracked connection is closed, including those tracked after closing began, and no worker is left |
| `OutlineDevice.OpenIsRecorded` | core/outline/ownership.go:156-190 | a tracked open connection is recorded |
| `OutlineDevice.FirstSweepPasses` | core/outline/ownership.go:229-281 | the first phase of Close, when its closes succeed, ends with nothing recorded, the listener closed and the workers still to drain |
| `OutlineDevice.CloseSucceeds` | core/outline/ownership.go:229-303 | the second phase, once the workers are gone and its closes succeed, reports success and leaves nothing |
| `OutlineDevice.Device.TrackConn` | core/outline/ownership.go:179-190 | recorded whatever happens, handed out only while open |
| `OutlineDevice.Device.ForgetConn` | core/outline/ownership.go:156-170 | a connection leaves the record when its close succeeded |
| `OutlineDevice.Device.BeginClose` | core/outline/ownership.go:252-259 | closing begins with exactly the recorded connections to sweep |
| `StreamScope.OneOutcome` | core/outline/ownership.go:52-126 | a scope that ended is handed off or aborted; it is both exactly if handoff was called on it after it had succeeded and its context had been cancelled |
| `StreamScope.RepeatedHandoffMarksBoth` | core/outline/ownership.go:72-86 | that a second handoff after a cancellation does mark both |
| `StreamScope.OutcomeIsFinal` | core/outline/ownership.go:52-126 | the outcome never changes back |
| `StreamScope.HandedOffClosesNothing` | core/outline/ownership.go:72-98 | a handed-off scope never closes a connection it accepted |
| `StreamScope.AbortedClosesAll` | core/outline/ownership.go:88-113 | an aborted scope has closed every connection it was given, once, by the time all calls returned |
| `StreamScope.NothingForgotten` | core/outline/ownership.go:52-70 | no connection given to the scope is left open and unowned |
| `StreamScope.WaitersAreServed` | core/outline/ownership.go:115-126 | a call waiting for the cancellation callback never waits in vain |
| `StreamScope.UndisturbedScopeServes` | core/outline/ownership.go:52-86 | a scope that nothing cancels or discards closes nothing, accepts every connection, and its handoff succeeds |
| `StreamScope.CancellationAborts` | core/outline/ownership.go:35-46 | cancellation before a handoff aborts the scope and takes every pending connection to be closed |
| `StreamScope.DiscardAborts` | core/outline/ownership.go:123-126 | discard aborts a scope that was not handed off, and leaves a handed-off one alone |
| `StreamScope.CancelledScopeRefuses` | core/outline/ownership.go:52-70 | register on a cancelled scope aborts it and closes that connection and every pending one |
| `StreamScope.CallsProceed` | core/outline/ownership.go:88-113 | a call closes each connection it has taken, and then goes on or returns |
| `StreamScope.PendingScope.RegisterConn` | core/outline/ownership.go:52-70 | register: new state and what is left to close |
| `StreamScope.PendingScope.HandOver` | core/outline/ownership.go:72-86 | handoff: new state, outcome and what is left to close |
| `StreamScope.PendingScope.AbortScope` | core/outline/ownership.go:88-98 | abort: new state and what is left to close |
| `UdpAssociation.StepInv` | core/outline/udp_association.go:41-225 | every interleaving keeps each upstream in exactly one place: the map, one thread's hands, the handler's list, or closed |
| `UdpAssociation.ClosedOnce` | core/outline/udp_association.go:141-225 | no upstream is closed twice, and by one of rejection, dropUpstream or closeUpstreams only, also when its key is reused |
| `UdpAssociation.NoneSurvives` | core/outline/udp_association.go:84-105 | when the handler returns every upstream ever dialed is closed |
| `UdpAssociation.FirstDatagramOpens` | core/outline/udp_association.go:141-178 | the first datagram for a destination opens an upstream, enters it and starts its relay |
| `UdpAssociation.LaterDatagramsReuse` | core/outline/udp_association.go:141-147 | later datagrams for it are written to the upstream that is there, and change nothing else |
| `UdpAssociation.UpstreamStays` | core/outline/udp_association.go:198-212 | an upstream in use stays entered under every event but its own drop and the end of the control connection |
| `UdpAssociation.FailedUpstreamDropped` | core/outline/udp_association.go:198-212 | a failed write or a relay that ends takes exactly that upstream out and closes it |
| `UdpAssociation.ControlEndsTakesAll` | core/outline/udp_association.go:214-225 | the end of the control connection takes every upstream and closes each |
| `UdpAssociation.HandlerReturns` | core/outline/udp_association.go:84-105 | the handler returns exactly when all were closed, reading has ended and no thread is left |
| `UdpAssociation.Association.Insert` | core/outline/udp_association.go:157-170 | late and duplicate upstreams are turned away, any other is entered |
| `UdpAssociation.Association.Drop` | core/outline/udp_association.go:198-212 | only the entry that still is this upstream is removed |
| `UdpAssociation.Association.TakeAll` | core/outline/udp_association.go:214-219 | closing takes every entry at once |
| `Teardown.Lease.Stop` | core/sessionapi/runtime/lifecycle.go:613-643 | steps run last first until one fails; what the parts still hold is what the lease keeps; it stays with all below it; nothing is released before the health monitor ends; whole new state |
| `Teardown.NestedIsFlat` | core/sessionapi/api.go:1064-1076 | leases stopped within ledgers behave as one flat stack |
| `Teardown.EachOnceInReverse` | core/routing/plan.go:91-104 | over any sequence of failing and retried Stops each step succeeds exactly once, in reverse order of acquisition |
| `Teardown.ComposedOrder` | core/sessionapi/runtime/lifecycle.go:323-333 | for whatever PrepareNetwork and Start left in their leases, below them the platform lease: in any failing and retried teardown a later acquired step is released before an earlier one, so flows detach before the device closes, that before its permissions retire, all before the core disconnects and the tunnel is released |
| `Teardown.Runtime.PrepareNetwork` | core/sessionapi/runtime/lifecycle.go:172-257 | whatever the parts acquired handed out is, in that order, what the returned lease will release, on failure too; a network that is owned or in use refuses another; success, failure and the runtime's network for each point of failure |
| `Teardown.Runtime.StopNetwork` | core/sessionapi/runtime/lifecycle.go:170-186 | the parts that are still handed out are those the lease keeps, none after the Stop that reports success; the runtime forgets the network exactly by the Stop that empties its lease |
| `Teardown.Runtime.StartLocked` | core/sessionapi/runtime/lifecycle.go:348-428 | at each failure point: what was handed out and not released yet is, in order, what the returned lease will release; what was acquired, released and retained |
| `Teardown.Runtime.Start` | core/sessionapi/runtime/lifecycle.go:259-338 | what is handed out is, in order, what the returned lease will release; a connected attempt, or a reversed release, or a lease with what is left; the runtime stays reserved exactly if a lease is out or a failure in startup reported an unfinished cleanup as its own cause |
| `Teardown.ReservedWithoutLease` | core/sessionapi/runtime/lifecycle.go:273-287 | an input for the latter: everything is released, no lease is handed out, and the next Start is refused |
| `Teardown.Runtime.StopAttempt` | core/sessionapi/runtime/lifecycle.go:340-346 | the parts still handed out are those the lease keeps, none after success; the runtime becomes free exactly by the Stop that empties the lease |
| `Teardown.NothingStaysHandedOut` | core/sessionapi/runtime/lifecycle.go:259-338 | for every way in which the parts acquired may fail: bringing up the network and an attempt, stopping what there is and stopping it again once nothing fails gives back everything that was handed out |
| `NetworkGuard.WindowsNetworkGuard.constructor` | core/routing/windows_guard_windows.go:172-211 | the base policy is installed in one transaction, whole or not at all |
| `NetworkGuard.WindowsNetworkGuard.Authorize` | core/routing/windows_guard_windows.go:423-462 | at most one new permission, only above the fence; refused otherwise without effect, and only for a context that ended, a closed guard, a fenced generation or a failing engine; every engine filter stays recorded by one owner |
| `NetworkGuard.WindowsNetworkGuard.Retire` | core/routing/windows_guard_windows.go:463-485 | the fence rises whatever happens; success removes exactly this generation's filters; failure removes none, and comes only with permissions left and a closed guard, an ended context or a failing engine |
| `NetworkGuard.WindowsNetworkGuard.UpdateBootstrap` | core/routing/windows_guard_windows.go:490-532 | resolver filters are replaced as a whole, two per server, or not at all, and the latter only for an ended context, a closed guard, an invalid server or a failing engine |
| `NetworkGuard.WindowsNetworkGuard.Close` | core/routing/windows_guard_windows.go:539-555 | closing the dynamic session removes every filter at once |
| `NetworkGuard.RetiredStaysOut` | core/routing/windows_guard_windows.go:423-485 | after Retire(g) succeeded no later call authorizes g and the engine permits nothing for g |
| `NetworkGuard.SocketScope.ProtectFD` | core/tunnel/protected_dialer/scope.go:77-101 | a closed or cancelled attempt authorizes nothing; success of a guarded peer means its permission exists above the fence |
| `NetworkGuard.SocketScope.Close` | core/tunnel/protected_dialer/scope.go:51-65 | closed exactly when the permissions are retired; a failed close can be repeated |
| `LinuxNetwork.Plan.Acquire` | core/routing/plan.go:49-69 | a successful apply is recorded at once; a closed plan applies nothing |
| `LinuxNetwork.Plan.Close` | core/routing/plan.go:91-104 | leases are released last first; the entries removed are exactly those of the released leases |
| `LinuxNetwork.Plan.AcquireFamily` | core/routing/network_linux.go:65-119 | after the preflight, a prefix of route and three rules in their order, all held by the plan; it is refused only by the preflight, a closed plan or a failing kernel |
| `LinuxNetwork.Plan.AcquireLinuxNetwork` | core/routing/network_linux.go:48-63 | however far it gets, what was added is a prefix of the eight entries over the link of that name, each family only after its preflight; it fails only for a wrong identity, a missing link, a preflight, a closed plan or a failing kernel |
| `LinuxNetwork.RecoverLinuxNetworkRules` | core/routing/network_linux.go:121-139 | recovery interrupted anywhere and repeated ends with the same tables and deletes nothing it does not own; each call is an attempt of the runs below |
| `LinuxNetwork.RecoverFamily` | core/routing/network_linux.go:134-206 | one family: afterwards nothing recoverable is left, or recovery stopped for an ambiguous rule, an unknown link or a failing kernel |
| `LinuxNetwork.CrashPrefixRoundTrip` | core/routing/network_linux.go:48-206 | from tables that pass the preflight, acquisition cut after any operation, then any run of vanishing and appearing links and interrupted recoveries: a completed recovery leaves the tables as they were, less the routes the kernel dropped with a link |
| `LinuxNetwork.RecoveryForgetsAcquisition` | core/routing/network_linux.go:121-206 | without the preflight, for the same runs: recovery leaves what it would have left had nothing been acquired |
| `LinuxNetwork.RecoveryIsNotRefused` | core/routing/network_rules_linux.go:25-50 | at every point of those runs no rule identity is ambiguous and no link unknown |
| `LinuxNetwork.CloseUndoesAcquisition` | core/routing/plan.go:91-104 | the orderly way back undoes acquisition step by step |
| `LinuxNetwork.PacketsGo` | core/routing/network_linux.go:88-119 | what the kernel makes of the acquired entries: a packet with the mark goes out by the physical route or is refused, never into the tunnel; any other goes into the tunnel |
| `LogFollower.OnceAndInOrder` | core/cmd/dobbyvpn/logs.go:198-239 | at every moment of every run each byte passed was written once, in order, or skipped; what was skipped a clear had covered, or it lay below what the number of the file inherited when it appeared |
| `LogFollower.NothingElseIsSkipped` | core/cmd/dobbyvpn/logs.go:128-184 | as long as no file takes a number that a saved boundary still names, a file loses nothing but what was cleared; one never cleared is written in full up to the position |
| `LogFollower.ReusedNumberHides` | core/cmd/dobbyvpn/logs.go:130-159 | a cleared file is unlinked and its number used again: the new file is passed by the first poll but not shown from its beginning |
| `LogFollower.PollsCatchUp` | core/cmd/dobbyvpn/logs.go:198-225 | with at most two rotations between captures a completed poll has passed every byte that existed when it captured; it wrote all that were new exactly if the boundary it had read reaches, for the number of the file, no further than earlier polls had come: zero, for a new file |
| `LogFollower.ThirdRotationLoses` | core/diagnostics/export.go:24-68 | a third rotation can lose a file |
| `LogFollower.StepInv` | core/cmd/dobbyvpn/logs.go:198-239 | every append, rotation, clear and poll step keeps the follower's invariant |
| `LogFollower.StepCaps` | core/cmd/dobbyvpn/logs.go:227-239 | every step keeps all boundaries that can still meet a file below what a clear covered of it or its number inherited |
| `LogFollower.LogView.CopyOne` | core/cmd/dobbyvpn/logs.go:227-239 | copyInput: new offset and output |
| `LogFollower.LogView.CopyAvailable` | core/cmd/dobbyvpn/logs.go:198-225 | one poll is the drain and copy steps in their order; only captured offsets survive |

## Left out

- Real I/O and foreign code (netlink, WFP, D-Bus, cgo, JNI, TUN devices, protocol engines, SOCKS parsing): every such call is an environment step that may succeed or fail.
- Directory and file synchronisation: a crash keeps every completed operation; loss of unsynchronised data on power failure is not modelled, nor is a synchronisation that fails after the last operation of a migration.
- Permissions, links and non-regular files in the log directory: every log path holds a regular file or nothing.
- A legacy source whose files coincide with the destination's own derived names: paths are distinct by construction.
- Read and write errors in the middle of one stream: staging is one operation that, cut short, leaves anything at all in the staged files.
- Failure codes, messages, profile summaries, Snapshot, ProtectSocket and source storage of the session manager: errors are ordinary or cleanup failures; storage may fail.
- The shared cleanup deadline: any closer may fail at any time, which includes running out of time.
- Wall-clock time: only the five-minute stability test is kept, as a comparison of given times.
- SessionTheorems.NeverStuck: assumes closers that succeed from some point on, because a closer that always fails can keep resources forever.
- OutlineDevice.SuccessMeansDrained: covers tracked connections; a raw connection that a pending-stream scope closes with an ignored error is outside it.
- TransportSockets.SuccessMeansDrained: covers sockets handed to track; the UDP route check in the same dialer closes its own socket and reports, but does not retain, a failed close.
- FlowTheorems.SuccessMeansDrained: an origin refused by HandleUDP before admission is closed by the router and not owned by any attempt.
- EngineOwnership.StoppedIsDrained: one engine; the process-wide reservation that rejects a second engine is not modelled.
- LogFollower.PollsCatchUp: one followed path; several paths are followed in the same way. A boundary that cannot be read and an output error end the follower.
- LogFollower.LogView.CopyAvailable: a poll without interference; the transition system covers interference.
- NetworkGuard.WindowsNetworkGuard.UpdateBootstrap: an invalid server address is found after the filters before it were added; here the change is refused after all were added, and rolled back either way.
- LinuxNetwork.PacketsGo: rules outside the three acquired priorities; one with a lower number, which is not this program's, may decide first.
- LinuxNetwork.RecoverFamily: links do not change while one recovery attempt reads them; a link that goes meanwhile is an attempt cut at that point, followed by another.
- Teardown.ComposedOrder: that retiring the permissions of an attempt fences them is proved in `NetworkGuard`; here it is one named step.
- Plan.Repair, physical route discovery, the macOS and Android routing back ends, raw stderr rotation, log export and upload.
- The DNS cache fence, descriptor reservations, the native readiness latch, subscription debounce and the user interfaces: small machines or wrappers without a hard property.
