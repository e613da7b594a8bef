# ShellBeam: verified models of its concurrent cores

ShellBeam runs commands on behalf of agents: a daemon authenticates a helper process and has it run one
child, keeps delegated tmux sessions with private intervals, answers Git snapshots from a shared cache,
and owns its directories through kernel locks. This project models the parts where the difficulty lies
in interleavings, persistence and nested encodings, and proves what the code promises for every run and
every input.

`dafny verify dfyconfig.toml` checks the whole project.

| module | models | main results |
|---|---|---|
| `OutputCapture` | the two-reader output capture and the offset-checking receiver | what the daemon receives is a faithful, budgeted prefix of both pipes |
| `FrameStream` | length-prefixed frames on a connection that may break | exactly the whole frames arrive |
| `OutputDelivery` | capture, encoding, framing, a breaking connection and the receiver together | a result is faithful wherever the connection breaks |
| `HelperProtocol` | helper and daemon as two programs over one connection | no child before its durable reservation; never both waiting; authenticated only by a proof of this claim; a result exactly at the terminal frame |
| `Claim` | the helper's claim proof | a proof is accepted for exactly its own claim |
| `ChildCollection` | the waiting, capturing and selecting goroutines around one child | the wait returns once, at most one kill, and when it is late |
| `HelperRuntime` | preparing, starting, collecting and reaping the child | closed once, started at most once, waited for once, killed when not handed on, on every path |
| `ControlMode` | the incremental and the batch parser of tmux Control Mode | both meet one grammar; printing round-trips |
| `Quoting` | shell quoting inside tmux quoting | both layers read back what was quoted, exactly when no tmux argument begins with a tilde |
| `ControlClient`, `SharedCounter`, `CommandResults` | the control client | outputs appended once; counters balance; result k answers command k |
| `Privacy` | private observation across arm, release, reattach, detach, restart | the observer is private exactly when it should be; a proof means privacy; handles die for good |
| `Wait` | waiting for a pane's process | never blocks past the exit; bounded; returns the exit code; every answer has its cause |
| `SnapshotCache` | the single-flight snapshot cache | one flight per key; cached answers are recent; followers share; every answer is what its call found |
| `Lease` | reference-counted directory ownership | one owner per directory; counts, locks and descriptors agree; a call gets the directory it asked for |
| `Descendants` | counting descendants in a process table | the count is the number of reachable processes |
| `EvidenceCut` | reading evidence at a cut | a returned set is the evidence of exactly that generation |
| `ProbeReport`, `QualificationGate` | probe reports and the qualification gate | verdicts, derivation, verification and their exact conditions |
| `Prelude`, `Text`, `Sequences` | shared options, text functions, permutations and sorting | splitting, parsing and sorting laws the others use |

## How things are modelled

- Objects that the program updates in place are classes (`ControlClient.LiveClient`, `Privacy.Provider`,
  `SnapshotCache.Store`, `HelperRuntime.ChildProcess`); their methods are tied to functions on values, and
  the runs use those same functions (`SnapshotCache.Store` and the cache's runs share `LookupEntry`,
  `Joined`, `Published` and `Landed`). Loops are methods with invariants.
- Concurrent protocols are state machines: one step per critical section or system call, events in any
  order, and theorems about every event sequence.
- What the file system, the kernel, tmux, the network and the clock do is a parameter of each step.
- SHA-256 and the MAC are taken as injective. Saving a record can succeed, fail without effect, or fail
  after the rename took effect.

## Properties that fail, and exactly when

- A release that tmux carried out while the record still says active exposes the interval:
  `Privacy.MutedUnlessLoosened` gives the exact condition. The next successful Reattach or Arm repairs a
  release that could not be recorded, and one whose answer was lost, but not one followed by a second
  lost answer on the same client: `Privacy.SuccessRestores`. In `Privacy.TwoLostAnswersLeak` arming again
  succeeds on the answers of earlier checks, privacy is proved, and output leaks.
- One abandoned control command shifts the answers of all later ones: `CommandResults.AbandonedCallMispairs`,
  exactly by the number of abandoned calls: `CommandResults.ResultsShiftByAbandonedCalls`.
- A probe by `Held` can make an acquisition report a live owner where there is none:
  `Lease.ProbeRefusesAcquire`; `Lease.TurnedAwayExactlyWhen` gives the exact condition.
- tmux replaces a leading tilde inside double quotes by a home directory, and `quoteTmuxArg` leaves it
  alone: a command line is read back exactly when no argument after the name begins with a tilde,
  `Quoting.TmuxReadsBack`. It matters for environment values, `Quoting.EnvironmentReadsBack`; a variable set
  to a lone tilde is stored as the home directory, `Quoting.TildeValueIsReplaced`. The line that starts a
  session has no such argument.
- The timeout or cancellation of a child can kill its process group after the child was reaped, exactly
  when the wait returned before the kill step: `ChildCollection.LateKillExactlyWhen`. It happens when the
  wait was over before the select, `ChildCollection.SelectPrefersTimer`, and when it ends between the select
  and the kill, `ChildCollection.EveryWayHappens`.
- The gate check counts bindings and looks each report up, so a report given twice leaves one binding
  unbacked, `QualificationGate.UnbackedBindingVerifies`; every binding is backed exactly when the reports'
  platform keys are distinct, `QualificationGate.BackedExactlyWhen`.

## Model

| member | source | states |
|---|---|---|
| `OutputCapture.ReadStream` | internal/adapter/contextexec/output.go:57-74 | everything one pipe produced arrives as chunks, in order, before that reader's only end marker |
| `OutputCapture.ArrivalKeepsEachStream` | internal/adapter/contextexec/output.go:52-123 | in every interleaving of the two readers each pipe's bytes stay whole and in order |
| `OutputCapture.SecondDoneIsLast` | internal/adapter/contextexec/output.go:52-123 | the consumer has seen both end markers exactly when it has drained everything |
| `OutputCapture.CaptureOutput` | internal/adapter/contextexec/output.go:52-123 | the emitted frames carry exactly the kept prefix of what arrived, with contiguous offsets per stream; the error is that of the first chunk whose reading or sending failed; complete exactly when there is no error and nothing was cut |
| `OutputCapture.BudgetKeepsPrefixes` | internal/adapter/contextexec/output.go:52-123 | what is kept is a prefix of each pipe, together the smaller of the budget and what was produced |
| `OutputCapture.ReceiveResult` | internal/adapter/contextexec/server.go:308-363 | a result is returned exactly when a prefix of the exchange, stray prepared and spawn frames aside, is gap-free, within bounds and closed by an agreeing terminal frame; its three buffers are that prefix |
| `OutputCapture.ResultExactlyWhen` | internal/adapter/contextexec/server.go:308-363 | a result is given exactly for strays and outputs of at most 64 KiB without gaps and within the bound, closed by a terminal for this request that counts them, uncancelled; it holds each stream, both in order, and that terminal |
| `OutputCapture.CaptureIsReceived` | internal/adapter/contextexec/server.go:308-363 | every frame of a capture, whatever stray frames lie between, is accepted, and the payload taken is what was kept |
| `OutputCapture.ErrorFreeCaptureIsFaithful` | internal/adapter/contextexec/server.go:308-363 | of an error-free capture with strays anywhere, of which any beginning arrives and which may be cancelled: received stdout and stderr are prefixes of the real streams, the combined output a merge of them, the counts agree; and there is a result when the terminal frame arrives uncancelled |
| `OutputCapture.NoTerminalNoResult` | internal/adapter/contextexec/server.go:308-363 | an exchange without a terminal frame yields no result |
| `FrameStream.HeaderRoundTrip` | internal/adapter/contextexec/protocol.go:246-284 | the four-byte size reads back as written |
| `FrameStream.ReadWritten` | internal/adapter/contextexec/protocol.go:246-284 | a written frame reads back and leaves the rest of the stream |
| `FrameStream.ReadCutShort` | internal/adapter/contextexec/protocol.go:270-284 | a frame cut anywhere is a lost connection, never a wrong frame |
| `FrameStream.ReadExactlyWhen` | internal/adapter/contextexec/protocol.go:246-284 | a frame is read exactly when 1 byte to 128 KiB were written behind their big-endian size; which headers are refused, and what counts as a lost connection |
| `FrameStream.BrokenConnectionYieldsWholeFrames` | internal/adapter/contextexec/protocol.go:246-284 | wherever the connection breaks, exactly the frames that arrived whole are read, in order |
| `OutputDelivery.ArrivesAsPrefix` | internal/adapter/contextexec/protocol.go:246-284 | wherever the connection breaks, the decoded messages are a beginning of those sent, and all of them when it does not |
| `OutputDelivery.SprinkledIsExchange` | internal/adapter/contextexec/server.go:326-360 | stray prepared and spawn frames anywhere leave an exchange the same exchange |
| `OutputDelivery.CaptureAndReceive` | internal/adapter/contextexec/runtime.go:148-198 | capture, sending, breaking connection and receiver composed: for every break point, strays and cancellation a result is faithful, and there is one when nothing is lost, broken off or cancelled |
| `HelperProtocol.NoChildBeforeReservation` | internal/adapter/contextexec/runtime.go:86-146 | in every run, a started child has a durable authorized reservation and is the child of the only execute frame |
| `HelperProtocol.ReservationPrecedesStart` | internal/adapter/contextexec/server.go:205-275 | the step that starts a child finds its reservation already stored, and no later step starts another |
| `HelperProtocol.ResultNamesOneChild` | internal/adapter/contextexec/server.go:205-300 | output is accepted only from a stored spawned state, and reservation, execute frame, spawn frame and process name the same child |
| `HelperProtocol.TerminalGivesTheResult` | internal/adapter/contextexec/server.go:345-360 | in every run the daemon has a result exactly when the last message it read is the terminal frame, and then for the child the helper started |
| `HelperProtocol.ExchangeCanSucceed` | internal/adapter/contextexec/client.go:16-101 | for every expectation, challenge and capability that have a proof, every child and executable, some run ends with both sides done, nothing confused and a result for that child |
| `HelperProtocol.FailedPreparationIsAnswered` | internal/adapter/contextexec/server.go:205-250 | some run reports a failed preparation, stores its record, and ends with the denial read and nothing started |
| `HelperProtocol.FailedSpawnIsRecorded` | internal/adapter/contextexec/server.go:251-262 | some run reports a failed spawn, stores its record, and ends with both sides done and nothing started |
| `HelperProtocol.ExecuteAnswersThePreparation` | internal/adapter/contextexec/server.go:205-250 | in every run the execute frame authorizes only a preparation that succeeded and denies only one that failed |
| `HelperProtocol.AuthorizerDecides` | internal/adapter/contextexec/server.go:218-245 | the daemon denies exactly a failed preparation that is not authorized, authorizes exactly a good one with a stored reservation of the child it names, and otherwise ends without an answer |
| `HelperProtocol.IdentitiesAreChecked` | internal/adapter/contextexec/client.go:16-69 | in every run the daemon goes past the hello only for its own launch, asks only after a valid bound record was stored, and a child is started only by a helper whose launch the challenge names and whose request repeats its identity |
| `HelperProtocol.StateIsCheckedExactlyWhen` | internal/adapter/contextexec/server.go:277-300 | the check of a durable record leaves nothing open but the child and the permission |
| `HelperProtocol.NeverBothWaiting` | internal/adapter/contextexec/client.go:16-101 | in every run either side can move or both have finished, and neither side reads a message of a kind it does not expect |
| `HelperProtocol.NextMessageFits` | internal/adapter/contextexec/client.go:16-101 | in every run the message that a waiting side finds is of the one kind it waits for |
| `HelperProtocol.OnlyTheExpectedKind` | internal/adapter/contextexec/protocol.go:304-318 | whatever a peer sends, each side takes only the kind of message it waits for, and skips stray prepared and spawn frames while receiving |
| `HelperProtocol.FailingSideStops` | internal/adapter/contextexec/server.go:205-275 | a failed local step or a cancellation ends a side at once: it sends, starts and stores nothing more |
| `HelperProtocol.MovingChangesTheWorld` | internal/adapter/contextexec/server.go:69-147 | being able to move means that the next step of a waiting side changes the world |
| `HelperProtocol.ProofIsForThisExchange` | internal/adapter/contextexec/server.go:69-147 | in every run in which the daemon is past the proof check, the proof it read verifies for the challenge and capability it sent and for its own identity, and proves no other claim |
| `HelperProtocol.AnyPeerMustProveTheClaim` | internal/adapter/contextexec/server.go:110-124 | whatever a peer sends, the daemon gets past authentication only by a proof of its own identity, challenge and capability |
| `Claim.PayloadInjective` | internal/adapter/contextexec/auth.go:102-110 | the NUL-joined payload determines every field of the identity and the challenge |
| `Claim.AcceptedExactlyForOwnClaim` | internal/adapter/contextexec/auth.go:83-140 | with an injective MAC, a proof is accepted exactly for the capability, identity and challenge it was made for |
| `HelperRuntime.KillAndReapChild` | internal/adapter/contextexec/runtime.go:200-210 | kills and then waits, each if the child offers it, each once |
| `ChildCollection.EndsInOneOfTheWays` | internal/adapter/contextexec/runtime.go:148-176 | over every interleaving of waiter, select, timer, cancellation and kill: at the end the wait has returned exactly once, there was at most one kill, and the outcome, flags and order are one of five ways |
| `ChildCollection.LateKillExactlyWhen` | internal/adapter/contextexec/runtime.go:236-267 | the kill comes after the reaping exactly when the wait had returned before the kill step |
| `ChildCollection.EveryWayHappens` | internal/adapter/contextexec/runtime.go:236-267 | each way of ending has a run, the kill that becomes late between select and kill included |
| `ChildCollection.EveryWayCollects` | internal/adapter/contextexec/runtime.go:148-176 | and each of them goes on to a collection with that outcome and the captured output |
| `ChildCollection.KilledOnlyWithCause` | internal/adapter/contextexec/runtime.go:236-267 | in every run the child is killed only for a timeout that ran out or a cancellation that came, and the outcome says which |
| `ChildCollection.SelectPrefersTimer` | internal/adapter/contextexec/runtime.go:253-262 | a run in which the wait is over before the select and the timer is picked all the same |
| `ChildCollection.CanGoOn` | internal/adapter/contextexec/runtime.go:171-172 | once the wait has returned and the capture has ended the collection is never stuck |
| `HelperRuntime.WaitForChild` | internal/adapter/contextexec/runtime.go:236-267 | for each way the collection can end: the child's calls in their order, the outcome, the timeout flag and the signal |
| `HelperRuntime.PrepareAuthorizedExecution` | internal/adapter/contextexec/runtime.go:86-113 | the prepared executable is closed on every path that does not hand it on, and the daemon was told what happened |
| `HelperRuntime.StartAuthorizedExecution` | internal/adapter/contextexec/runtime.go:115-146 | started once and closed once; a child that is not handed on has been killed and then reaped, each if it offers that; the failure code names what went wrong first |
| `HelperRuntime.CollectChildTerminal` | internal/adapter/contextexec/runtime.go:148-198 | a terminal exactly when wait, capture, reaping and validation succeeded, carrying the exit, the kill and the capture's counts |
| `HelperRuntime.Execute` | internal/adapter/contextexec/runtime.go:61-84 | on every path: prepared closed exactly once after at most one start; a started child is waited for exactly once, and killed first whenever it is not handed on; a terminal frame with the exit, the kill and the counts exactly when everything went well, and the code of the first failure otherwise |
| `HelperRuntime.SpawnReportsFollowPreparation` | internal/adapter/contextexec/runtime.go:115-146 | a successful spawn is reported exactly when the authorized executable, by absolute path, was started as a child that offers both pipes, waiting and killing and runs it, and the handle closed; a failed one exactly when the start failed; either comes last, after the prepared report |
| `ControlMode.DecodeControlOutput` | internal/adapter/delegatedtmux/control.go:191-211 | the decoding loop computes the octal decoding and refuses malformed escapes |
| `ControlMode.DecodeInvertsEscape` | internal/adapter/delegatedtmux/control.go:191-211 | decoding inverts octal escaping for every byte string and every choice of escaped bytes |
| `ControlMode.DecodedExactlyWhen` | internal/adapter/delegatedtmux/control.go:191-211 | text decodes exactly when each byte stands for itself, but a backslash never, or as a three-digit octal escape below 256, and to those bytes |
| `ControlMode.ParseControl` | internal/adapter/delegatedtmux/control.go:51-121 | the incremental parser accepts and yields what folding its line step does |
| `ControlMode.BatchParse` | tools/interactive-handoff-h0/control.go:38-105 | the batch parser accepts exactly when the incremental one does, with the same events |
| `ControlMode.ParsePrinted` | internal/adapter/delegatedtmux/control.go:51-121 | printing a document and parsing it gives its events back |
| `ControlMode.ParserMeetsGrammar` | internal/adapter/delegatedtmux/control.go:51-190 | the parsers accept exactly the line sequences that are documents, with exactly their events |
| `ControlMode.PrintedBlock` | internal/adapter/delegatedtmux/control.go:122-157 | a block as tmux prints it is a well-formed command carrying its number and body |
| `ControlMode.PrintedOutput` | internal/adapter/delegatedtmux/control.go:158-211 | an output notification as tmux prints it carries the pane and its bytes |
| `ControlMode.OutputExactlyWhen` | internal/adapter/delegatedtmux/control.go:158-176 | an output line is accepted exactly when it names a pane and its text spells the bytes |
| `ControlMode.NotificationMeans` | internal/adapter/delegatedtmux/control.go:177-190 | the event of a message, detachment, exit, stray end of a block and unknown line, for every text |
| `ControlMode.BlockLineExactlyWhen` | internal/adapter/delegatedtmux/control.go:122-157 | a begin or end line, however spaced, numbers its block exactly with a keyword, a time, a non-negative number and unsigned flags |
| `Quoting.QuoteTmuxArg` | internal/adapter/delegatedtmux/control.go:214-242 | the quoting loop refuses exactly arguments with a NUL |
| `Quoting.QuotedByteExactly` | internal/adapter/delegatedtmux/control.go:214-242 | which bytes stand for themselves, which get a backslash, and which their three octal digits |
| `Quoting.TmuxCommandLine` | internal/adapter/delegatedtmux/provider_tmux.go:99-124 | a line is built exactly for a safe command name and NUL-free arguments |
| `Quoting.TmuxReadsBack` | internal/adapter/delegatedtmux/provider_tmux.go:99-112 | tmux's tokeniser reads back exactly the arguments if and only if none after the name begins with a tilde |
| `Quoting.EnvironmentReadsBack` | internal/adapter/delegatedtmux/provider_tmux.go:156-164 | tmux stores the value that was meant if and only if it does not begin with a tilde |
| `Quoting.TildeValueIsReplaced` | internal/adapter/delegatedtmux/control.go:214-242 | a variable set to a lone tilde is stored as the home directory |
| `Quoting.CommandLineIsOneLine` | internal/adapter/delegatedtmux/control.go:421-424 | every command line the provider builds is one non-empty line without any control character |
| `Quoting.ShellReadsBackWorkload` | internal/adapter/delegatedtmux/provider_tmux.go:182-218 | the shell splits the wrapper into the gate redirection and exactly argv0, executable and arguments |
| `Quoting.ValidExactlyWhen` | internal/adapter/delegatedtmux/provider_tmux.go:201-218 | the two forms a workload can take, and no other |
| `Quoting.WrapperBytes` | internal/adapter/delegatedtmux/provider_tmux.go:182-200 | the wrapper is NUL-free exactly when the gate and every value are |
| `Quoting.StartSession` | internal/adapter/delegatedtmux/provider_tmux.go:99-200 | both layers together give back the workload, for every NUL-free specification and whatever the home directories are |
| `ControlClient.EveryOutputOnce` | internal/adapter/delegatedtmux/control.go:306-329 | for one retargeting interleaved in any way with delivery and no recorded error, every output of the pane is appended exactly once, early ones in order and later ones in order |
| `ControlClient.BufferIsBounded` | internal/adapter/delegatedtmux/control.go:370-397 | the pending buffer never exceeds its bound; the counter counts exactly the bytes appended and never falls |
| `ControlClient.ErrorExactlyWhen` | internal/adapter/delegatedtmux/control.go:370-404 | in every run an error is recorded exactly when more than 256 KiB were parsed before there was a target or the sink refused an output of the target |
| `ControlClient.EverythingCanArrive` | internal/adapter/delegatedtmux/control.go:306-397 | whatever is parsed and wherever the target is set, given at most 256 KiB before it: some run settles without an error, and so appends every output of the target |
| `ControlClient.DeliveryGoesOn` | internal/adapter/delegatedtmux/control.go:306-397 | in every run a thread that holds, drains or has yet to take an output can go on, and has less left to do |
| `ControlClient.LiveClient.TakeOutput` | internal/adapter/delegatedtmux/control.go:370-397 | the locked part of delivery as an update in place |
| `ControlClient.LiveClient.AppendOutput` | internal/adapter/delegatedtmux/control.go:370-397 | the append after the lock, and the error it records |
| `ControlClient.LiveClient.Retarget` | internal/adapter/delegatedtmux/control.go:306-317 | the locked part of retargeting empties the buffer into the drain |
| `ControlClient.LiveClient.DrainNext` | internal/adapter/delegatedtmux/control.go:318-329 | one round of the drain appends the pane's output or drops another pane's |
| `SharedCounter.CountersBalance` | internal/adapter/delegatedtmux/control.go:272-287 | over every run each counter equals the bytes appended by all clients that share it |
| `SharedCounter.SharingContinuesTheCount` | internal/adapter/delegatedtmux/control.go:279-287 | handing a counter on continues the reported total, and no step lowers a counter |
| `SharedCounter.ReplacementCountsOn` | internal/adapter/delegatedtmux/control.go:272-287 | a new client that takes over a counter before it has a target counts on from there, for both |
| `CommandResults.ResultsShiftByAbandonedCalls` | internal/adapter/delegatedtmux/control.go:405-438 | a waiting call takes a block whenever one is queued: the block of the call as many places back as there were abandoned calls, so its own exactly when there were none |
| `CommandResults.QueueStaysShort` | internal/adapter/delegatedtmux/control.go:330-369 | at most one block more than abandoned calls is queued; the queue overflows exactly when a block arrives while 64 wait, which needs 64 abandoned calls |
| `CommandResults.AbandonedCallMispairs` | internal/adapter/delegatedtmux/control.go:405-438 | after one cancelled call the next call returns the cancelled call's block |
| `Privacy.ControlClient.CheckFacts` | internal/adapter/delegatedtmux/provider_tmux.go:226-343 | the two queries of an identity check, each taking the next answer of the queue |
| `Privacy.Provider.ArmPrivateObservation` | internal/adapter/delegatedtmux/privacy.go:167-221 | arming as an update of record and client, branch by branch |
| `Privacy.Provider.ProvePrivateObservation` | internal/adapter/delegatedtmux/privacy.go:223-250 | the proof's outcome from the present record, the client's flag and its identity check |
| `Privacy.Provider.ReleasePrivateObservation` | internal/adapter/delegatedtmux/privacy.go:252-293 | releasing as an update of client flag and record, with each failure's residue |
| `Privacy.Provider.EnsureCurrentObserverPrivate` | internal/adapter/delegatedtmux/privacy_recovery.go:26-44 | keeps a verified private client, replaces any other that has a sink |
| `Privacy.Provider.ReplaceWithPrivateObserver` | internal/adapter/delegatedtmux/privacy_recovery.go:46-85 | installs a fresh private client or changes nothing |
| `Privacy.Provider.ReattachSession` | internal/adapter/delegatedtmux/provider_session.go:165-235 | reattaching as an update, private exactly when the record is active |
| `Privacy.Provider.CreateSession` | internal/adapter/delegatedtmux/provider_session.go:41-102 | resumes an existing session or installs an ordinary client on a fresh one |
| `Privacy.Provider.DetachSession` | internal/adapter/delegatedtmux/provider_session.go:408-426 | drops the client and nothing else |
| `Privacy.Provider.CloseSession` | internal/adapter/delegatedtmux/provider_session.go:428-453 | what each failing step of closing leaves behind |
| `Privacy.PrivateUnlessUnrecorded` | internal/adapter/delegatedtmux/privacy.go:167-350 | in every run, inside an interval the installed client is flagged private except exactly when a release on it was not recorded |
| `Privacy.MutedUnlessLoosened` | internal/adapter/delegatedtmux/privacy.go:252-293 | in every run, inside an interval the client is silenced except exactly when tmux carried out a release on it that the record does not show |
| `Privacy.NothingLeaks` | internal/adapter/delegatedtmux/privacy.go:167-350 | without such a release no output of an interval ever reaches a sink |
| `Privacy.ProofMeansPrivate` | internal/adapter/delegatedtmux/privacy.go:223-250 | in every run a proof of privacy means an interval, the record's own handle, and a flagged client without an unrecorded release or exactly one lost answer, silenced exactly when no release loosened it |
| `Privacy.ProofMeansSilence` | internal/adapter/delegatedtmux/privacy.go:223-250 | without a loosening release privacy is proved only while nothing is audible |
| `Privacy.ProofExactlyWhen` | internal/adapter/delegatedtmux/privacy.go:223-250 | when everything works the record's own handle is proved exactly inside an interval with a flagged client |
| `Privacy.ProofRefusalsMean` | internal/adapter/delegatedtmux/privacy.go:223-250 | what each refusal of a proof says |
| `Privacy.ArmedMeans` | internal/adapter/delegatedtmux/privacy.go:167-221 | what a successful arm leaves: record, handle, and a flagged client on the provider's pane with the same sink |
| `Privacy.ArmExactlyWhen` | internal/adapter/delegatedtmux/privacy.go:167-221 | when everything works an arm succeeds exactly for a first or later interval, or for the active one at no earlier epoch, given a client with a sink |
| `Privacy.ArmRefusalsMean` | internal/adapter/delegatedtmux/privacy.go:167-221 | what each refusal of an arm says |
| `Privacy.ReleasedMeans` | internal/adapter/delegatedtmux/privacy.go:252-293 | what a successful release leaves: the record closed, the same client unflagged and, with no lost answer, sent output again |
| `Privacy.ReleaseExactlyWhen` | internal/adapter/delegatedtmux/privacy.go:252-293 | when everything works a release by the record's own handle and boundary succeeds exactly when the interval is over already or the client is flagged |
| `Privacy.ReleaseRefusalsMean` | internal/adapter/delegatedtmux/privacy.go:252-293 | what each refusal of a release says |
| `Privacy.ReattachedMeans` | internal/adapter/delegatedtmux/provider_session.go:165-235 | what a successful reattach leaves: a client on the provider's pane with the given sink, flagged inside an interval |
| `Privacy.ReattachExactlyWhen` | internal/adapter/delegatedtmux/provider_session.go:165-235 | when everything works reattaching succeeds exactly when there is a session |
| `Privacy.SessionsComeAndGo` | internal/adapter/delegatedtmux/provider_session.go:41-102 | what creating, detaching and closing leave when they succeed, and when they do |
| `Privacy.OneLostAnswerFailsChecks` | internal/adapter/delegatedtmux/provider_tmux.go:226-343 | on a client that lost exactly one answer no identity check succeeds |
| `Privacy.SuccessRestores` | internal/adapter/delegatedtmux/privacy_recovery.go:12-85 | a successful Reattach or Arm leaves the interval with a flagged client, silenced unless it was loosened and lost at least two answers |
| `Privacy.SuccessMeans` | internal/adapter/delegatedtmux/privacy.go:167-350 | in every run a call of the provider that succeeds stands on steps that worked: new clients started and proved, identity checks passed, commands answered, records saved; a close succeeds exactly then |
| `Privacy.TwoLostAnswersLeak` | internal/adapter/delegatedtmux/privacy.go:283-292 | a run in which arming again succeeds, privacy is proved and output leaks |
| `Privacy.EpochsIncrease` | internal/adapter/delegatedtmux/privacy.go:167-221 | no call but Close lowers the stored epoch; a new interval, handoff or handle has a strictly greater one |
| `Privacy.EpochNeverDecreases` | internal/adapter/delegatedtmux/privacy.go:167-350 | the same over every stretch of every run without Close; an equal epoch means the same handle and no new interval |
| `Privacy.HandleInjective` | internal/adapter/delegatedtmux/privacy.go:352-356 | a handle determines its generation, handoff and epoch |
| `Privacy.CurrentHandleRetires` | internal/adapter/delegatedtmux/privacy.go:252-293 | a successful release, and an arm for another spec, retire the current handle |
| `Privacy.SupersededHandleStaysDead` | internal/adapter/delegatedtmux/privacy.go:223-293 | a retired handle never again proves privacy or changes state through Release, whatever happens until Close |
| `Privacy.OneHandleAtATime` | internal/adapter/delegatedtmux/privacy.go:223-293 | of all handles handed out under the stored record only the record's own can prove or release |
| `Wait.ReturnsAreTruthful` | internal/adapter/delegatedtmux/provider_session.go:302-346 | a successful return is terminal with the exit code of an exited process; the settling error too only after the exit and the budget |
| `Wait.SurvivesReplacement` | internal/adapter/delegatedtmux/provider_session.go:348-376 | a changing observer ends a proof only after three replacements within it |
| `Wait.QueryFailureEnds` | internal/adapter/delegatedtmux/provider_session.go:364-373 | a failed query ends the wait exactly when its client is still installed or none is |
| `Wait.NeverBlocksPastExit` | internal/adapter/delegatedtmux/provider_session.go:302-346 | wherever the exit falls, a waiter whose watcher was told goes on, or sleeps within the settle interval |
| `Wait.StepsRunOut` | internal/adapter/delegatedtmux/provider_session.go:383-406 | own steps use up a bound that nothing in the environment raises |
| `Wait.WaitIsBounded` | internal/adapter/delegatedtmux/provider_session.go:302-406 | in every run the waiter takes a bounded number of steps of its own |
| `Wait.ExitEndsWait` | internal/adapter/delegatedtmux/provider_session.go:302-406 | from every reachable state after the exit the waiter returns within a fixed number of rounds, whatever replaces the observer meanwhile |
| `Wait.ExitCodeIsReturned` | internal/adapter/delegatedtmux/provider_session.go:302-406 | from every reachable state after the exit in which tmux has the code and an observer is installed, smooth rounds end with that code, exactly when the proof was not past saving already |
| `Wait.EveryAnswerHasItsCause` | internal/adapter/delegatedtmux/provider_session.go:302-406 | in every run the step in which Wait returns a result is exactly one that explains it; the observer is reported missing exactly when none was installed at that look |
| `Wait.LooksDecide` | internal/adapter/delegatedtmux/provider_session.go:302-406 | in every run Wait registers and blocks only after looks that showed the pane alive; a look that shows it terminal, or the exit, starts the settling, which it leaves only by returning |
| `Wait.AnswersHappen` | internal/adapter/delegatedtmux/provider_session.go:302-406 | runs that end with any exit code, with a missing or changing observer, and with a cancellation |
| `SnapshotCache.Store.Lookup` | internal/adapter/git/cache.go:36-56 | age, quality and currency of the stored entry |
| `SnapshotCache.Store.Begin` | internal/adapter/git/cache.go:58-67 | joins the open flight or opens and leads a new one |
| `SnapshotCache.Store.Complete` | internal/adapter/git/cache.go:69-78 | publishes, stores only fresh results and removes the key's flight |
| `SnapshotCache.OneFlightPerKey` | internal/adapter/git/cache.go:58-78 | in every run at most one open flight per key, each completed at most once |
| `SnapshotCache.EveryFlightLandsOnce` | internal/adapter/git/snapshot.go:56-78 | an open flight has a leader that has not returned and whose next step is never blocked; any other was completed exactly once, and its leader returned what it published |
| `SnapshotCache.CompletingRemovesOwnFlight` | internal/adapter/git/cache.go:69-78 | the entry a completion removes is its own flight's; it publishes its result and stores it exactly when it is fresh |
| `SnapshotCache.EntriesAreFresh` | internal/adapter/git/cache.go:69-78 | entries hold only fresh results of successful reads of their key |
| `SnapshotCache.CachedAnswersAreRecent` | internal/adapter/git/snapshot.go:33-79 | a cached answer comes from a successful read that began no earlier than the caller's clock minus the limit; a forced-fresh call never gets one |
| `SnapshotCache.FollowersShareTheResult` | internal/adapter/git/snapshot.go:57-64 | a follower returns exactly what its leader published, as soon as it is published, or the budget diagnostic |
| `SnapshotCache.AnswersAreSourced` | internal/adapter/git/snapshot.go:66-78 | every answer not marked unavailable carries the contents of a successful read of its key |
| `SnapshotCache.AnswersMatchWhatWasFound` | internal/adapter/git/snapshot.go:33-79 | in every run an answer is decided by what its call found and met: from the cache the entry, cached within the limit and stale beyond; from its own read that read, or the entry marked stale with the reason, and unavailable only without an entry; else the flight's result or the budget |
| `SnapshotCache.FlightsCarryTheLeadersRead` | internal/adapter/git/snapshot.go:66-78 | in every run the result of a flight is what its leader's own read and lookup decide |
| `SnapshotCache.EveryCallReturns` | internal/adapter/git/snapshot.go:45-79 | in every run each of a caller's own steps brings it nearer to its answer, at most five are needed, and nobody else moves it |
| `SnapshotCache.StaleAnswerHappens` | internal/adapter/git/snapshot.go:66-78 | a run in which a failed read over an expired entry answers with that entry, marked stale and with the reason |
| `SnapshotCache.CachedAnswerHappens` | internal/adapter/git/snapshot.go:51-55 | a run in which a call at the very end of the limit answers from the cache, without a read |
| `Lease.HolderFollowsItsLeases` | internal/ownership/lease_unix.go:98-162 | in every run a holder's count is its number of unreleased leases; outside its critical section the kernel lock of a living process is held exactly while the count is positive, and the descriptor has been closed, once, exactly when it is zero |
| `Lease.ClosedAtMostOnce` | internal/ownership/lease_unix.go:237-262 | no descriptor is ever closed twice |
| `Lease.OneHolderPerDirectory` | internal/ownership/lease_unix.go:110-162 | two referenced holders of living processes on one directory are the same holder |
| `Lease.AcquiredIsWhatWasAsked` | internal/ownership/lease_unix.go:110-162 | in every run an acquired or shared lease is one of the very directory the call's last open found, which is locked while the lease and its process live; so a call whose directory differs never gets a share |
| `Lease.AnswersMatchTheAttempt` | internal/ownership/lease_unix.go:124-130 | in every run a live owner is reported, and a probe answers held, exactly when the lock attempt found the directory locked |
| `Lease.AcquireAlone` | internal/ownership/lease_unix.go:110-137 | left to itself an acquisition of a free directory gives a first lease of a new holder and locks it |
| `Lease.AcquireLocked` | internal/ownership/lease_unix.go:124-130 | left to itself an acquisition of a locked directory reports a live owner and changes no lock |
| `Lease.ShareAlone` | internal/ownership/lease_unix.go:147-162 | left to itself AcquireWith on the lease's own directory gives one more lease of the same holder |
| `Lease.OtherDirectoryAlone` | internal/ownership/lease_unix.go:151-154 | left to itself AcquireWith on another free directory acquires that one afresh |
| `Lease.EmptiedHolderAlone` | internal/ownership/lease_unix.go:155-159 | left to itself AcquireWith on an emptied holder acquires its directory afresh |
| `Lease.ReleaseLastAlone` | internal/ownership/lease_unix.go:239-262 | left to itself the release of a last lease unlocks the directory and closes the descriptor |
| `Lease.ReleaseSharedAlone` | internal/ownership/lease_unix.go:239-262 | left to itself the release of a shared lease gives back one reference and leaves the lock |
| `Lease.ProbeFreeAlone` | internal/ownership/lease_unix.go:200-217 | left to itself a probe of a free directory answers not held and changes no lock |
| `Lease.ProbeLockedAlone` | internal/ownership/lease_unix.go:200-217 | left to itself a probe of a locked directory answers held and changes no lock |
| `Lease.FailedAcquireLeavesNoLock` | internal/ownership/lease_unix.go:110-137 | a call that returned without a lease left every file it opened closed and unlocked, the abandoned lease's too |
| `Lease.ReleaseIsDone` | internal/ownership/lease_unix.go:239-262 | every Release that returns finds the reference given back; the empty-holder guard is never taken |
| `Lease.MutexHolderCanMove` | internal/ownership/lease_unix.go:147-162 | the call inside a holder's mutex is never itself blocked, so nobody waits for a mutex forever |
| `Lease.TurnedAwayExactlyWhen` | internal/ownership/lease_unix.go:196-217 | in every run the lock attempt of an acquisition fails with a live owner, and that of a probe answers held, exactly when a living holder still owns the directory or another probe is between lock and unlock |
| `Lease.ProbeRefusesAcquire` | internal/ownership/lease_unix.go:124-130 | a run in which a probe makes an acquisition report a live owner without any lease |
| `Descendants.IndexChildren` | tools/interactive-handoff-h0/scenario_resource_measurement.go:72-91 | the child lists hold exactly the parsed rows; no index exactly when a line is malformed |
| `Descendants.CountDescendants` | tools/interactive-handoff-h0/scenario_resource_measurement.go:72-106 | the count is the number of processes other than the root reachable from it, cycles, self-parents and duplicates included |
| `Descendants.OrderAndRepetitionDoNotMatter` | tools/interactive-handoff-h0/scenario_resource_measurement.go:72-106 | only which rows there are matters |
| `Descendants.ParsePrintedTable` | tools/interactive-handoff-h0/scenario_resource_measurement.go:72-91 | a printed table reads back as itself |
| `Descendants.LineMeans` | tools/interactive-handoff-h0/scenario_resource_measurement.go:74-90 | a line is decided by its words, however padded: none is blank, a positive and a non-negative number are a row, anything else is malformed |
| `Descendants.TableMeans` | tools/interactive-handoff-h0/scenario_resource_measurement.go:72-91 | a table has rows exactly when no line is malformed, and then those of its lines in order |
| `EvidenceCut.FilterOperation` | cmd/shellbeam/decision_protocol.go:222-228 | keeps exactly the operation's candidates, in order |
| `EvidenceCut.FilteringKeepsOrder` | cmd/shellbeam/decision_protocol.go:222-228 | filtering is decided candidate by candidate and keeps order and repetitions |
| `EvidenceCut.ScanKeepsTheFirst` | cmd/shellbeam/decision_protocol.go:215-218 | a read gives the first 128 candidates of the reservation, and calls itself whole exactly when there are no more |
| `EvidenceCut.ReturnsTheCut` | cmd/shellbeam/decision_protocol.go:204-240 | whatever writes come in between, a returned set is the operation's evidence in the one version whose watermark is the cut |
| `EvidenceCut.UndisturbedReaderSucceeds` | cmd/shellbeam/decision_protocol.go:188-229 | a reader nobody disturbs gets the evidence of its cut |
| `EvidenceCut.StaleCutIsRefused` | cmd/shellbeam/decision_protocol.go:231-240 | in every run, once the watermark has passed the cut a reader that has not returned never will |
| `EvidenceCut.WriteSpoilsTheCut` | cmd/shellbeam/decision_protocol.go:204-240 | a write anywhere before the second check, the cut not being in the future, means that the reader never returns a set |
| `EvidenceCut.EveryMoveCounts` | cmd/shellbeam/decision_protocol.go:204-240 | in every run each move of a reader makes progress: it fails when it cannot read, a check fails exactly when the watermark is not the cut, an unknown operation at once |
| `EvidenceCut.FailuresHaveCauses` | cmd/shellbeam/decision_protocol.go:204-240 | in every run an unsettled store is reported only if the cut was not the watermark or something was written, an unavailable one only if a read failed or the operation was unknown |
| `ProbeReport.KnownProbes` | tools/interactive-handoff-h0/report.go:33-42 | known ids are exactly P0 to P15 in their one spelling |
| `ProbeReport.ComputeVerdict` | tools/interactive-handoff-h0/report.go:89-114 | the early-exit loop computes the declarative verdict |
| `ProbeReport.PassExactlyWhen` | tools/interactive-handoff-h0/report.go:89-114 | PASS exactly when the results are a permutation of P0 to P15, all passing |
| `ProbeReport.NotRunExactlyWhen` | tools/interactive-handoff-h0/report.go:89-114 | NOT_RUN exactly without sixteen results, or when each required probe is there, none failed and one was not run |
| `ProbeReport.ValidateReport` | tools/interactive-handoff-h0/report.go:57-87 | accepts exactly the valid reports; the check for missing probes is subsumed by the others |
| `ProbeReport.ValidExactlyWhen` | tools/interactive-handoff-h0/report.go:57-87 | a report is valid exactly when it lists P0 to P15, each once and with a status, and its verdict follows from them |
| `QualificationGate.ComputeConsensus` | tools/interactive-handoff-h0/report.go:175-221 | the value all reports give, when there is one |
| `QualificationGate.VerifyGate` | tools/interactive-handoff-h0/report.go:292-354 | accepts exactly the gates whose constants, bindings, platform entries and permission follow from the reports |
| `QualificationGate.VerifiesExactlyWhen` | tools/interactive-handoff-h0/report.go:292-354 | for reports of distinct platform keys a gate verifies exactly with the right constants, valid reports and digests, bindings that are theirs in some order, and the entries and permission derived from them |
| `QualificationGate.BackedExactlyWhen` | tools/interactive-handoff-h0/report.go:314-345 | every binding of a verified gate is backed by a report exactly when the reports' platform keys are distinct |
| `QualificationGate.UnbackedBindingVerifies` | tools/interactive-handoff-h0/report.go:314-345 | a gate that verifies with a binding no report backs: one report given twice |
| `QualificationGate.PermittedExactlyWhen` | tools/interactive-handoff-h0/report.go:248-290 | the provider is permitted exactly with the right constants, valid reports of distinct platforms that agree on the gate's fence and topology, and passing reports of darwin and linux |
| `QualificationGate.DerivedGatePermits` | tools/interactive-handoff-h0/report.go:135-173 | a derived gate permits exactly then, and names the agreed fence and topology |
| `QualificationGate.DerivedGateVerifies` | tools/interactive-handoff-h0/report.go:135-173 | a derived gate verifies against its own reports exactly when they are valid, with 64-digit hex digests and distinct platform keys |
| `QualificationGate.OrderOfReportsIsFree` | tools/interactive-handoff-h0/report.go:135-173 | for distinct platforms the derived gate does not depend on the order of the reports |
| `QualificationGate.AllowedExactlyWhen` | tools/interactive-handoff-h0/platform_gate.go:17-56 | a platform is allowed exactly when its report is valid and passed, names a fence and has a qualified topology |
| `QualificationGate.QualifyExactlyWhen` | tools/interactive-handoff-h0/platform_gate.go:17-56 | a platform's entry names a fence and a topology exactly when all sixteen probes passed and prove them, the topology being the first proven one; an entry that is not allowed names neither |
| `QualificationGate.TopologyIsNamed` | tools/interactive-handoff-h0/report.go:223-246 | the qualified topology is a candidate whose five privacy probes passed; none exactly when no candidate's did |
| `QualificationGate.PassingCheckMeans` | tools/interactive-handoff-h0/platform_gate.go:79-91 | a passing platform check implies a bound report of that platform with all sixteen probes passing, a fence and a fully qualified topology |
| `QualificationGate.PlatformCheckExactlyWhen` | tools/interactive-handoff-h0/platform_gate.go:79-91 | for reports of distinct platforms the check passes exactly when the gate verifies and that platform's report passed and proves a fence and a topology |

## Left out

- Wiring in cmd/shellbeam, flag parsing, IPC request mapping and the services under internal/app: forwarding without state of its own.
- JSON encoding and decoding of frames, records and reports: values are taken as typed, and the frames' encoding as any codec that reads back what it writes.
- The bytes of claim capabilities and how they are handed to the helper.
- Splitting a byte stream into Control Mode lines, and the reader's line-length limit.
- The escaped fact lines of provider_tmux.go (splitEscapedTmuxFacts and parseTmuxFacts): an answer to another command is taken not to parse, and whether the facts match is an outcome of the step.
- Comparing executables and directories by identity in the helper runtime and protocol: an outcome of the step.
- Concurrent calls on one provider reference: private observation and session calls are taken as serialised.
- A crash in the middle of a provider call is the same call failing at that point, followed by a restart.
- The error value that repeated Release calls share, and the advisory owner file's contents.
- The parsing of Git status output, and the upstream query, behind a snapshot read.
- Which candidates the evidence store returns first and how it decides coverage: any scan in store order with the record limit.
- tmux's letter escapes, variables and words that mix quotes with bare text: the reference tokeniser refuses them, and the provider writes none. Home directories are taken as non-empty and not beginning with a tilde.
- Lease: modelled on values, because calls of several processes interleave inside one method; update in place is one step's new value.
- Wait: modelled on values, for the same reason.
- The error a probe by `Held` returns when it cannot open or lock the directory: its answer, not held, is modelled.
- The diagnostic that a fresh Git snapshot carries about its upstream.
- Rendering of reports, the native probes that drive tmux, and report digests.
